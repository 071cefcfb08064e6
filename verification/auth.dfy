/** The sign-in / sign-up form: prioritised field errors, the validation gate
    in front of the authentication service, and the mapping of the service's
    answer onto the screen's authentication state. */
module Auth {
  import opened Outcomes
  import opened Text

  /** The signed-in user handed back by the identity service; only its
      identity matters here. */
  datatype User = User(uid: string)

  datatype AuthUiState = AuthUiState(
    email: string,
    password: string,
    confirmPassword: string,
    emailError: Option<string>,
    passwordError: Option<string>,
    confirmPasswordError: Option<string>,
    isSignUp: bool)

  datatype AuthState = Initial | Loading | Success(user: User) | Error(message: string)

  datatype AuthViewModel = AuthViewModel(ui: AuthUiState, authState: AuthState)

  /** What a validation pass leaves behind and what it answers. */
  datatype Validation = Validation(ui: AuthUiState, valid: bool)

  /** The e-mail and password handed to the identity service. */
  datatype Credentials = Credentials(email: string, password: string)

  /** A sign-in or sign-up press: the resulting state, and the request sent
      to the identity service, if one was sent at all. */
  datatype Attempt = Attempt(vm: AuthViewModel, request: Option<Credentials>)

  const EmailRequired := "Email is required"
  const InvalidEmail := "Invalid email"
  const PasswordRequired := "Password is required"
  const PasswordTooShort := "Password must be at least 6 characters"
  const PasswordsDiffer := "Passwords don't match"
  const UnknownAuthError := "Unknown error"
  const MinPasswordLength := 6

  const Fresh := AuthViewModel(AuthUiState("", "", "", None, None, None, false), Initial)

  /** The e-mail field's message: emptiness is reported before the address
      pattern is consulted. `isEmailAddress` stands for the platform's
      e-mail address pattern. */
  function EmailError(email: string, isEmailAddress: string -> bool): (e: Option<string>)
    ensures e.None? <==> |email| > 0 && isEmailAddress(email)
    ensures e == Some(EmailRequired) <==> |email| == 0
    ensures e == Some(InvalidEmail) <==> |email| > 0 && !isEmailAddress(email)
  {
    if |email| == 0 then Some(EmailRequired)
    else if !isEmailAddress(email) then Some(InvalidEmail)
    else None
  }

  /** The password field's message; the length is counted in UTF-16 code
      units and exactly six passes. */
  function PasswordError(password: string): (e: Option<string>)
    ensures e.None? <==> Utf16Length(password) >= MinPasswordLength
    ensures e == Some(PasswordRequired) <==> |password| == 0
    ensures e == Some(PasswordTooShort) <==> 0 < Utf16Length(password) < MinPasswordLength
  {
    if |password| == 0 then Some(PasswordRequired)
    else if Utf16Length(password) < MinPasswordLength then Some(PasswordTooShort)
    else None
  }

  /** The credentials a sign-in accepts. */
  predicate SignInAcceptable(ui: AuthUiState, isEmailAddress: string -> bool) {
    |ui.email| > 0 && isEmailAddress(ui.email) && Utf16Length(ui.password) >= MinPasswordLength
  }

  /** `validateSignInForm`: always writes both field errors, clears nothing
      else, and passes exactly the acceptable credentials. */
  function ValidateSignInForm(ui: AuthUiState, isEmailAddress: string -> bool): (r: Validation)
    ensures r.valid <==> SignInAcceptable(ui, isEmailAddress)
    ensures r.valid <==> r.ui.emailError.None? && r.ui.passwordError.None?
    ensures r.ui.emailError == EmailError(ui.email, isEmailAddress)
    ensures r.ui.passwordError == PasswordError(ui.password)
    ensures r.ui.(emailError := ui.emailError, passwordError := ui.passwordError) == ui
  {
    var emailError := EmailError(ui.email, isEmailAddress);
    var passwordError := PasswordError(ui.password);
    Validation(ui.(emailError := emailError, passwordError := passwordError),
               emailError.None? && passwordError.None?)
  }

  /** `validateSignUpForm`: runs the sign-in checks in full, then the
      confirmation check, and passes only when both pass. */
  function ValidateSignUpForm(ui: AuthUiState, isEmailAddress: string -> bool): (r: Validation)
    ensures r.valid <==> SignInAcceptable(ui, isEmailAddress) && ui.password == ui.confirmPassword
    ensures r.ui.emailError == EmailError(ui.email, isEmailAddress)
    ensures r.ui.passwordError == PasswordError(ui.password)
    ensures r.ui.confirmPasswordError == Some(PasswordsDiffer) <==> ui.password != ui.confirmPassword
    ensures r.ui.confirmPasswordError.None? <==> ui.password == ui.confirmPassword
    ensures r.ui.(emailError := ui.emailError, passwordError := ui.passwordError,
                  confirmPasswordError := ui.confirmPasswordError) == ui
  {
    var basic := ValidateSignInForm(ui, isEmailAddress);
    var confirmError := if basic.ui.password != basic.ui.confirmPassword then Some(PasswordsDiffer) else None;
    Validation(basic.ui.(confirmPasswordError := confirmError), basic.valid && confirmError.None?)
  }

  /** `onEmailChange`: replaces the e-mail and nothing else; a stale error
      message stays until the next validation. */
  function OnEmailChange(vm: AuthViewModel, email: string): (r: AuthViewModel)
    ensures r.ui.email == email
    ensures r.ui.(email := vm.ui.email) == vm.ui && r.authState == vm.authState
  {
    vm.(ui := vm.ui.(email := email))
  }

  /** `onPasswordChange`. */
  function OnPasswordChange(vm: AuthViewModel, password: string): (r: AuthViewModel)
    ensures r.ui.password == password
    ensures r.ui.(password := vm.ui.password) == vm.ui && r.authState == vm.authState
  {
    vm.(ui := vm.ui.(password := password))
  }

  /** `onConfirmPasswordChange`. */
  function OnConfirmPasswordChange(vm: AuthViewModel, confirmPassword: string): (r: AuthViewModel)
    ensures r.ui.confirmPassword == confirmPassword
    ensures r.ui.(confirmPassword := vm.ui.confirmPassword) == vm.ui && r.authState == vm.authState
  {
    vm.(ui := vm.ui.(confirmPassword := confirmPassword))
  }

  /** The `when` over the service's `Result`: the user on success, the
      failure's message (or a fixed fallback) otherwise. */
  function ToAuthState(reply: Result<User>): (s: AuthState)
    ensures s.Success? <==> reply.Success?
    ensures reply.Success? ==> s.user == reply.value
    ensures reply.Failure? ==> s == AuthState.Error(MessageOr(reply.fault, UnknownAuthError))
  {
    match reply
    case Success(user) => AuthState.Success(user)
    case Failure(f) => AuthState.Error(MessageOr(f, UnknownAuthError))
  }

  /** The press before the service answers: an invalid form only shows its
      errors; a valid one switches to `Loading` and sends the form's
      e-mail and password. */
  function Submit(vm: AuthViewModel, check: Validation): (r: Attempt)
    ensures r.vm.ui == check.ui
    ensures !check.valid ==> r.request.None? && r.vm.authState == vm.authState
    ensures check.valid ==> r.vm.authState == Loading
    ensures check.valid ==> r.request == Some(Credentials(vm.ui.email, vm.ui.password))
  {
    if !check.valid then Attempt(vm.(ui := check.ui), None)
    else Attempt(AuthViewModel(check.ui, Loading), Some(Credentials(vm.ui.email, vm.ui.password)))
  }

  /** The service's answer lands: only the authentication state changes. */
  function Complete(a: Attempt, reply: Result<User>): (r: Attempt)
    ensures r.request == a.request && r.vm.ui == a.vm.ui
    ensures a.request.None? ==> r.vm.authState == a.vm.authState
    ensures a.request.Some? ==> r.vm.authState == ToAuthState(reply)
  {
    if a.request.None? then a else a.(vm := a.vm.(authState := ToAuthState(reply)))
  }

  /** `signIn`, with `reply` standing for what the service would answer. */
  function SignIn(vm: AuthViewModel, isEmailAddress: string -> bool, reply: Result<User>): (r: Attempt)
    ensures r.vm.ui == ValidateSignInForm(vm.ui, isEmailAddress).ui
    ensures r.request.Some? <==> SignInAcceptable(vm.ui, isEmailAddress)
    ensures !SignInAcceptable(vm.ui, isEmailAddress) ==> r.vm.authState == vm.authState
    ensures SignInAcceptable(vm.ui, isEmailAddress) ==>
      r.request == Some(Credentials(vm.ui.email, vm.ui.password)) && r.vm.authState == ToAuthState(reply)
  {
    Complete(Submit(vm, ValidateSignInForm(vm.ui, isEmailAddress)), reply)
  }

  /** `signUp`: the same gate with the confirmation check added. */
  function SignUp(vm: AuthViewModel, isEmailAddress: string -> bool, reply: Result<User>): (r: Attempt)
    ensures r.vm.ui == ValidateSignUpForm(vm.ui, isEmailAddress).ui
    ensures r.request.Some? <==> SignInAcceptable(vm.ui, isEmailAddress) && vm.ui.password == vm.ui.confirmPassword
    ensures r.request.None? ==> r.vm.authState == vm.authState
    ensures r.request.Some? ==>
      r.request == Some(Credentials(vm.ui.email, vm.ui.password)) && r.vm.authState == ToAuthState(reply)
  {
    Complete(Submit(vm, ValidateSignUpForm(vm.ui, isEmailAddress)), reply)
  }

  /** Anything sign-up lets through, sign-in lets through too. */
  lemma SignUpGateImpliesSignInGate(vm: AuthViewModel, isEmailAddress: string -> bool, reply: Result<User>)
    ensures SignUp(vm, isEmailAddress, reply).request.Some? ==> SignIn(vm, isEmailAddress, reply).request.Some?
  {
  }

  /** Validation reads only the three fields: stale error messages from an
      earlier pass never influence the next one. */
  lemma ValidationIgnoresStaleErrors(a: AuthUiState, b: AuthUiState, isEmailAddress: string -> bool)
    requires a.email == b.email && a.password == b.password && a.confirmPassword == b.confirmPassword
    ensures ValidateSignUpForm(a, isEmailAddress).valid == ValidateSignUpForm(b, isEmailAddress).valid
    ensures ValidateSignUpForm(a, isEmailAddress).ui.(isSignUp := b.isSignUp) == ValidateSignUpForm(b, isEmailAddress).ui
  {
  }

  /** A five-character password is refused and a six-character one passes. */
  lemma PasswordLengthBoundary()
    ensures PasswordError("abcde") == Some(PasswordTooShort)
    ensures PasswordError("abcdef").None?
  {
    assert Utf16Length("abcde") == 5;
    assert Utf16Length("abcdef") == 6;
  }

  /** Three characters beyond the Basic Multilingual Plane are six UTF-16
      units, so such a password passes although it has only three
      characters. */
  lemma SupplementaryPasswordPasses()
    ensures PasswordError("\U{1F600}\U{1F600}\U{1F600}").None?
  {
    Utf16LengthConcat("\U{1F600}", "\U{1F600}\U{1F600}");
    Utf16LengthConcat("\U{1F600}", "\U{1F600}");
  }
}
