/** The authentication page as one value, and what each event handler does to
    it. The provider's answers are parameters; the provider calls a handler
    makes are appended to `calls`, in order. The lemmas after each transition
    state what the page promises for that event. */
module Page {
  import opened Provider
  import opened JsText
  import opened Messages
  import opened Validation

  datatype Mode = Login | Signup

  /** The `active` class on the two toggle buttons and on the two forms. */
  datatype Tabs = Tabs(loginToggle: bool, signupToggle: bool, loginForm: bool, signupForm: bool)

  /** The `value` of the five input fields. */
  datatype Inputs = Inputs(loginEmail: string, loginPassword: string,
                           signupName: string, signupEmail: string, signupPassword: string)

  datatype Field = LoginEmail | LoginPassword | SignupName | SignupEmail | SignupPassword

  /** The colours of the feedback region: the stylesheet's error colours, which
      `hideError` restores, or the warning or success colours set inline. */
  datatype Severity = Error | Warning | Success

  /** The email and password a resend button's click handler captured. */
  datatype Credentials = Credentials(email: string, password: string)

  /** The feedback region: its text, the `show` class, its colours, and the
      resend button when one has been appended to it. */
  datatype Feedback = Feedback(text: string, shown: bool, severity: Severity, resend: Option<Credentials>)

  /** A button: its label, `disabled`, the `loading` class and
      `dataset.originalText` (absent until first saved). */
  datatype ButtonState = ButtonState(text: string, disabled: bool, loading: bool, originalText: Option<string>)

  datatype ButtonId = LoginButton | SignupButton | GoogleLoginButton | GoogleSignupButton

  /** Everything the handlers read or change. `signedIn` is the provider's
      session as the page last left it; `navigated` records that the page has
      been sent to `index.html`. */
  datatype PageState = PageState(
    tabs: Tabs, inputs: Inputs, feedback: Feedback,
    loginBtn: ButtonState, signupBtn: ButtonState,
    googleLoginBtn: ButtonState, googleSignupBtn: ButtonState,
    signedIn: bool, navigated: bool, calls: seq<Call>)

  const NoInput: Inputs := Inputs("", "", "", "", "")

  /** The feedback region after `hideError`. */
  const HiddenFeedback: Feedback := Feedback("", false, Error, None)

  /** Each toggle agrees with its form, and exactly one of the two forms is
      active. */
  predicate OnePanel(t: Tabs) {
    t.loginToggle == t.loginForm && t.signupToggle == t.signupForm && t.loginForm != t.signupForm
  }

  /** The panel whose toggle and form both carry `active`, the other's
      carrying neither; `None` for any other combination. */
  function ActivePanel(t: Tabs): Option<Mode> {
    if !OnePanel(t) then None
    else if t.loginForm then Some(Login)
    else Some(Signup)
  }

  function TabsFor(m: Mode): Tabs {
    match m
    case Login => Tabs(true, false, true, false)
    case Signup => Tabs(false, true, false, true)
  }

  /** `showError(message)`: setting `textContent` replaces the region's
      children, so an appended resend button goes away; colours are kept. */
  function Shown(f: Feedback, message: string): Feedback {
    Feedback(message, true, f.severity, None)
  }

  /** `setButtonLoading(button, isLoading)`. Turning loading off restores the
      saved label unless it is missing or empty, in which case the current
      label stays. */
  function WithLoading(b: ButtonState, isLoading: bool): ButtonState {
    if isLoading then ButtonState("", true, true, Some(b.text))
    else
      var restored := if b.originalText.Some? && b.originalText.value != "" then b.originalText.value else b.text;
      ButtonState(restored, false, false, b.originalText)
  }

  function ButtonOf(p: PageState, id: ButtonId): ButtonState {
    match id
    case LoginButton => p.loginBtn
    case SignupButton => p.signupBtn
    case GoogleLoginButton => p.googleLoginBtn
    case GoogleSignupButton => p.googleSignupBtn
  }

  function WithButton(p: PageState, id: ButtonId, b: ButtonState): PageState {
    match id
    case LoginButton => p.(loginBtn := b)
    case SignupButton => p.(signupBtn := b)
    case GoogleLoginButton => p.(googleLoginBtn := b)
    case GoogleSignupButton => p.(googleSignupBtn := b)
  }

  function Typed(i: Inputs, f: Field, v: string): Inputs {
    match f
    case LoginEmail => i.(loginEmail := v)
    case LoginPassword => i.(loginPassword := v)
    case SignupName => i.(signupName := v)
    case SignupEmail => i.(signupEmail := v)
    case SignupPassword => i.(signupPassword := v)
  }

  /** A button is disabled exactly while it is loading, and shows no label
      then. */
  predicate ButtonCoherent(b: ButtonState) {
    b.disabled == b.loading && (b.loading ==> b.text == "")
  }

  /** What every handler keeps true of the page: one panel is active, a hidden
      feedback region is empty and in its default colours, a resend button
      only sits in a warning, and every button is coherent. */
  predicate Coherent(p: PageState) {
    OnePanel(p.tabs) &&
    (!p.feedback.shown ==> p.feedback == HiddenFeedback) &&
    (p.feedback.resend.Some? ==> p.feedback.severity == Warning) &&
    ButtonCoherent(p.loginBtn) && ButtonCoherent(p.signupBtn) &&
    ButtonCoherent(p.googleLoginBtn) && ButtonCoherent(p.googleSignupBtn)
  }

  /** The page as loaded: Login active, fields empty, feedback hidden, buttons
      enabled with their labels, no provider call yet. */
  function Initial(loginLabel: string, signupLabel: string, googleLoginLabel: string,
                   googleSignupLabel: string, session: bool): (p: PageState)
    ensures Coherent(p) && ActivePanel(p.tabs) == Some(Login)
    ensures p.inputs == NoInput && p.feedback == HiddenFeedback && p.calls == [] && !p.navigated
    ensures p.signedIn == session
    ensures ButtonOf(p, LoginButton) == ButtonState(loginLabel, false, false, None)
    ensures ButtonOf(p, SignupButton) == ButtonState(signupLabel, false, false, None)
    ensures ButtonOf(p, GoogleLoginButton) == ButtonState(googleLoginLabel, false, false, None)
    ensures ButtonOf(p, GoogleSignupButton) == ButtonState(googleSignupLabel, false, false, None)
  {
    PageState(TabsFor(Login), NoInput, HiddenFeedback,
              ButtonState(loginLabel, false, false, None), ButtonState(signupLabel, false, false, None),
              ButtonState(googleLoginLabel, false, false, None), ButtonState(googleSignupLabel, false, false, None),
              session, false, [])
  }

  /** Loading then not loading brings back the label and enables the button;
      in between the button is disabled and blank. */
  lemma LoadingRoundTrip(b: ButtonState)
    ensures var mid := WithLoading(b, true);
      mid.disabled && mid.loading && mid.text == "" &&
      WithLoading(mid, false) == ButtonState(b.text, false, false, Some(b.text))
  {
  }

  /** Replacing one coherent button keeps the page coherent. */
  lemma WithButtonCoherent(p: PageState, id: ButtonId, b: ButtonState)
    requires Coherent(p) && ButtonCoherent(b)
    ensures Coherent(WithButton(p, id, b))
  {
  }

  /** Replacing one button leaves the other three as they were. */
  lemma WithButtonOthers(p: PageState, id: ButtonId, b: ButtonState)
    ensures ButtonOf(WithButton(p, id, b), id) == b
    ensures var q := WithButton(p, id, b);
      (id != LoginButton ==> q.loginBtn == p.loginBtn) && (id != SignupButton ==> q.signupBtn == p.signupBtn) &&
      (id != GoogleLoginButton ==> q.googleLoginBtn == p.googleLoginBtn) &&
      (id != GoogleSignupButton ==> q.googleSignupBtn == p.googleSignupBtn)
  {
  }

  /** Loading either way leaves a button coherent. */
  lemma WithLoadingCoherent(b: ButtonState, isLoading: bool)
    ensures ButtonCoherent(WithLoading(b, isLoading))
  {
  }

  /** The `catch` block shared by the three email and popup flows: show the
      mapped message, then stop the button's loading state. */
  function Caught(p: PageState, id: ButtonId, code: Option<string>): PageState {
    WithButton(p.(feedback := Shown(p.feedback, ErrorMessage(code))), id, WithLoading(ButtonOf(p, id), false))
  }

  /** The `catch` block keeps the page coherent. */
  lemma CaughtCoherent(p: PageState, id: ButtonId, code: Option<string>)
    ensures Coherent(p) ==> Coherent(Caught(p, id, code))
  {
    if Coherent(p) {
      WithButtonCoherent(p.(feedback := Shown(p.feedback, ErrorMessage(code))), id, WithLoading(ButtonOf(p, id), false));
    }
  }

  // ------------------------------------------------------------------
  // Toggles
  // ------------------------------------------------------------------

  /** A click on a toggle: both listeners run, the panel switch with
      `hideError` and then `clearFormInputs`. */
  function Toggled(p: PageState, m: Mode): (q: PageState)
    ensures ActivePanel(q.tabs) == Some(m)
    ensures q.feedback == HiddenFeedback && q.inputs == NoInput
    ensures q == p.(tabs := q.tabs, feedback := q.feedback, inputs := q.inputs)
    ensures Coherent(p) ==> Coherent(q)
  {
    p.(tabs := TabsFor(m), feedback := HiddenFeedback, inputs := NoInput)
  }

  /** Clicking the same toggle twice is the same as clicking it once. */
  lemma ToggleIdempotent(p: PageState, m: Mode)
    ensures Toggled(Toggled(p, m), m) == Toggled(p, m)
  {
  }

  // ------------------------------------------------------------------
  // Email and password login
  // ------------------------------------------------------------------

  predicate LoginReady(i: Inputs) {
    !AllJsWhitespace(i.loginEmail) && i.loginPassword != ""
  }

  /** The login form's submit handler, given what `signInWithEmailAndPassword`
      and, when reached, `signOut` answer. */
  function AfterLogin(p: PageState, signIn: Outcome<User>, signOut: Outcome<()>): PageState
  {
    var p1 := p.(feedback := HiddenFeedback);
    match LoginCheck(p.inputs.loginEmail, p.inputs.loginPassword)
    case Reject(message) => p1.(feedback := Shown(p1.feedback, message))
    case Proceed =>
      var p2 := p1.(loginBtn := WithLoading(p1.loginBtn, true));
      LoginTry(p2, Trim(p.inputs.loginEmail), p.inputs.loginPassword, signIn, signOut)
  }

  /** The login handler's `try` block and its `catch`, from the moment the
      button shows loading. */
  function LoginTry(p: PageState, email: string, password: string,
                    signIn: Outcome<User>, signOut: Outcome<()>): PageState
  {
    var p1 := p.(calls := p.calls + [SignInWithEmailAndPassword(email, password)]);
    match signIn
    case Fail(code) => Caught(p1, LoginButton, code)
    case Ok(user) =>
      var p2 := p1.(signedIn := true);
      if NeedsVerification(user) then
        var p3 := p2.(calls := p2.calls + [SignOut]);
        match signOut
        case Fail(code) => Caught(p3, LoginButton, code)
        case Ok(_) => Refused(p3.(signedIn := false), email, password)
      else
        p2.(navigated := true)
  }

  /** What follows the sign-out of an unverified account: the button stops
      loading, and the warning is shown with a resend button that holds the
      submitted credentials. */
  function Refused(p: PageState, email: string, password: string): PageState {
    var p1 := p.(loginBtn := WithLoading(p.loginBtn, false));
    var f := Shown(p1.feedback, EmailNotVerified).(severity := Warning);
    p1.(feedback := f.(resend := Some(Credentials(email, password))))
  }

  /** What every run of the login `try` block does. */
  lemma {:induction false} LoginTryFrame(p: PageState, email: string, password: string,
                                         signIn: Outcome<User>, signOut: Outcome<()>)
    requires p.feedback == HiddenFeedback
    ensures var q := LoginTry(p, email, password, signIn, signOut);
      q.tabs == p.tabs && q.inputs == p.inputs &&
      q.signupBtn == p.signupBtn && q.googleLoginBtn == p.googleLoginBtn && q.googleSignupBtn == p.googleSignupBtn &&
      (Coherent(p) ==> Coherent(q)) &&
      |q.calls| > |p.calls| && q.calls[|p.calls|] == SignInWithEmailAndPassword(email, password) &&
      (q.feedback.resend.Some? <==> signIn.Ok? && NeedsVerification(signIn.value) && signOut.Ok?) &&
      (q.navigated <==> p.navigated || (signIn.Ok? && !NeedsVerification(signIn.value)))
  {
    var p1 := p.(calls := p.calls + [SignInWithEmailAndPassword(email, password)]);
    match signIn
    case Fail(code) => CaughtCoherent(p1, LoginButton, code);
    case Ok(user) =>
      var p2 := p1.(signedIn := true);
      if NeedsVerification(user) {
        var p3 := p2.(calls := p2.calls + [SignOut]);
        match signOut
        case Fail(code) => CaughtCoherent(p3, LoginButton, code);
        case Ok(_) =>
          var p4 := p3.(signedIn := false);
          if Coherent(p) {
            WithButtonCoherent(p4, LoginButton, WithLoading(p4.loginBtn, false));
          }
      }
  }

  /** Login touches neither the panels, the fields nor the other buttons, and
      keeps the page coherent. It leaves a resend button exactly when an
      unverified password account was signed out again, and navigates
      exactly when a sign-in succeeded for any other account. */
  lemma LoginFrame(p: PageState, signIn: Outcome<User>, signOut: Outcome<()>)
    ensures var q := AfterLogin(p, signIn, signOut);
      q.tabs == p.tabs && q.inputs == p.inputs &&
      q.signupBtn == p.signupBtn && q.googleLoginBtn == p.googleLoginBtn && q.googleSignupBtn == p.googleSignupBtn &&
      (Coherent(p) ==> Coherent(q)) &&
      (q.feedback.resend.Some? <==>
         LoginReady(p.inputs) && signIn.Ok? && NeedsVerification(signIn.value) && signOut.Ok?) &&
      (q.navigated <==> p.navigated || (LoginReady(p.inputs) && signIn.Ok? && !NeedsVerification(signIn.value)))
  {
    var p1 := p.(feedback := HiddenFeedback);
    if LoginReady(p.inputs) {
      var b := WithLoading(p1.loginBtn, true);
      if Coherent(p) {
        WithLoadingCoherent(p1.loginBtn, true);
        WithButtonCoherent(p1, LoginButton, b);
      }
      LoginTryFrame(p1.(loginBtn := b), Trim(p.inputs.loginEmail), p.inputs.loginPassword, signIn, signOut);
    }
  }

  /** A blank email or an empty password: the request message, no provider
      call, the button untouched. */
  lemma LoginStopsLocally(p: PageState, signIn: Outcome<User>, signOut: Outcome<()>)
    requires !LoginReady(p.inputs)
    ensures AfterLogin(p, signIn, signOut) == p.(feedback := Feedback(MissingCredentials, true, Error, None))
  {
  }

  /** A verified account, or one whose first provider is not `password`, is
      sent to the landing page: one sign-in call and no sign-out, the session
      kept, the feedback cleared and the button still loading. */
  lemma LoginNavigates(p: PageState, user: User, signOut: Outcome<()>)
    requires LoginReady(p.inputs) && !NeedsVerification(user)
    ensures var q := AfterLogin(p, Ok(user), signOut);
      q.navigated && q.signedIn && q.feedback == HiddenFeedback &&
      q.loginBtn == WithLoading(p.loginBtn, true) &&
      q.calls == p.calls + [SignInWithEmailAndPassword(Trim(p.inputs.loginEmail), p.inputs.loginPassword)]
  {
  }

  /** An unverified password account is signed out again; the page stays,
      the button gets its label back, and the warning carries a resend button
      holding the submitted credentials. */
  lemma LoginRefusesUnverified(p: PageState, user: User)
    requires LoginReady(p.inputs) && NeedsVerification(user)
    ensures var q := AfterLogin(p, Ok(user), Ok(()));
      var email, password := Trim(p.inputs.loginEmail), p.inputs.loginPassword;
      q.navigated == p.navigated && !q.signedIn &&
      q.calls == p.calls + [SignInWithEmailAndPassword(email, password), SignOut] &&
      q.feedback == Feedback(EmailNotVerified, true, Warning, Some(Credentials(email, password))) &&
      q.loginBtn.text == p.loginBtn.text && !q.loginBtn.disabled && !q.loginBtn.loading
  {
    var email, password := Trim(p.inputs.loginEmail), p.inputs.loginPassword;
    var p1 := p.(feedback := HiddenFeedback);
    var p2 := p1.(loginBtn := WithLoading(p1.loginBtn, true));
    assert AfterLogin(p, Ok(user), Ok(())) == LoginTry(p2, email, password, Ok(user), Ok(()));
    var p3 := p2.(signedIn := false, calls := p2.calls + [SignInWithEmailAndPassword(email, password), SignOut]);
    assert LoginTry(p2, email, password, Ok(user), Ok(())) == Refused(p3, email, password);
    LoadingRoundTrip(p.loginBtn);
  }

  /** A rejected sign-in, or a rejected sign-out of an unverified account,
      shows the mapped message of that rejection; the page stays and the
      button gets its label back. */
  lemma LoginShowsFailure(p: PageState, signIn: Outcome<User>, signOut: Outcome<()>)
    requires LoginReady(p.inputs)
    requires signIn.Fail? || (NeedsVerification(signIn.value) && signOut.Fail?)
    ensures var q := AfterLogin(p, signIn, signOut);
      var code := if signIn.Fail? then signIn.code else signOut.code;
      q.navigated == p.navigated &&
      q.signedIn == (signIn.Ok? || p.signedIn) &&
      q.feedback == Feedback(ErrorMessage(code), true, Error, None) &&
      q.loginBtn.text == p.loginBtn.text && !q.loginBtn.disabled && !q.loginBtn.loading
  {
    var email, password := Trim(p.inputs.loginEmail), p.inputs.loginPassword;
    var p1 := p.(feedback := HiddenFeedback);
    var p2 := p1.(loginBtn := WithLoading(p1.loginBtn, true));
    assert AfterLogin(p, signIn, signOut) == LoginTry(p2, email, password, signIn, signOut);
    LoadingRoundTrip(p.loginBtn);
  }

  /** The resend button's click handler, given what the repeated sign-in,
      `sendEmailVerification` and `signOut` answer. It signs in again with the
      credentials captured at submit time. */
  function AfterResend(p: PageState, signIn: Outcome<User>, verify: Outcome<()>, signOut: Outcome<()>): (q: PageState)
    requires p.feedback.resend.Some?
  {
    var c := p.feedback.resend.value;
    var p1 := p.(calls := p.calls + [SignInWithEmailAndPassword(c.email, c.password)]);
    match signIn
    case Fail(_) => p1.(feedback := Shown(p1.feedback, ResendFailed))
    case Ok(user) =>
      var p2 := p1.(signedIn := true, calls := p1.calls + [SendEmailVerification(user.email)]);
      match verify
      case Fail(_) => p2.(feedback := Shown(p2.feedback, ResendFailed))
      case Ok(_) =>
        var p3 := p2.(calls := p2.calls + [SignOut]);
        match signOut
        case Fail(_) => p3.(feedback := Shown(p3.feedback, ResendFailed))
        case Ok(_) =>
          var p4 := p3.(signedIn := false);
          p4.(feedback := Shown(p4.feedback, VerificationSent).(severity := Success))
  }

  /** The resend handler changes only the feedback, the session and the
      calls, keeps the page coherent, and signs in with the captured
      credentials first. */
  lemma ResendFrame(p: PageState, signIn: Outcome<User>, verify: Outcome<()>, signOut: Outcome<()>)
    requires p.feedback.resend.Some?
    ensures var q := AfterResend(p, signIn, verify, signOut);
      var c := p.feedback.resend.value;
      q == p.(feedback := q.feedback, signedIn := q.signedIn, calls := q.calls) &&
      (Coherent(p) ==> Coherent(q)) &&
      q.calls == p.calls + [SignInWithEmailAndPassword(c.email, c.password)] +
                 (if signIn.Ok? then [SendEmailVerification(signIn.value.email)] + (if verify.Ok? then [SignOut] else [])
                  else [])
  {
  }

  /** All three steps succeed: signed out, and the success message in success
      colours replaces the warning and its button. */
  lemma ResendSucceeds(p: PageState, user: User)
    requires p.feedback.resend.Some?
    ensures var q := AfterResend(p, Ok(user), Ok(()), Ok(()));
      !q.signedIn && q.feedback == Feedback(VerificationSent, true, Success, None)
  {
  }

  /** Any step fails: the resend error replaces the warning and its button,
      in the colours the region already had; a session opened by the repeated
      sign-in stays open. */
  lemma ResendShowsFailure(p: PageState, signIn: Outcome<User>, verify: Outcome<()>, signOut: Outcome<()>)
    requires p.feedback.resend.Some?
    requires !(signIn.Ok? && verify.Ok? && signOut.Ok?)
    ensures var q := AfterResend(p, signIn, verify, signOut);
      q.signedIn == (signIn.Ok? || p.signedIn) &&
      q.feedback == Feedback(ResendFailed, true, p.feedback.severity, None)
  {
  }

  // ------------------------------------------------------------------
  // Email and password signup
  // ------------------------------------------------------------------

  predicate SignupFilled(i: Inputs) {
    !AllJsWhitespace(i.signupName) && !AllJsWhitespace(i.signupEmail) && i.signupPassword != ""
  }

  predicate SignupReady(i: Inputs) {
    SignupFilled(i) && Utf16Length(i.signupPassword) >= 6
  }

  predicate AllStepsSucceed(create: Outcome<User>, profile: Outcome<()>, verify: Outcome<()>, signOut: Outcome<()>) {
    create.Ok? && profile.Ok? && verify.Ok? && signOut.Ok?
  }

  /** The code of the first step that failed, in the order the steps run. */
  function FirstFailure(create: Outcome<User>, profile: Outcome<()>, verify: Outcome<()>, signOut: Outcome<()>): Option<string> {
    if create.Fail? then create.code
    else if profile.Fail? then profile.code
    else if verify.Fail? then verify.code
    else if signOut.Fail? then signOut.code
    else None
  }

  /** The signup form's submit handler, given what `createUserWithEmailAndPassword`,
      `updateProfile`, `sendEmailVerification` and `signOut` answer. All four
      sit in one `try`: the first failure ends the flow in the `catch`. */
  function AfterSignup(p: PageState, create: Outcome<User>, profile: Outcome<()>,
                       verify: Outcome<()>, signOut: Outcome<()>): PageState
  {
    var p1 := p.(feedback := HiddenFeedback);
    match SignupCheck(p.inputs.signupName, p.inputs.signupEmail, p.inputs.signupPassword)
    case Reject(message) => p1.(feedback := Shown(p1.feedback, message))
    case Proceed =>
      var p2 := p1.(signupBtn := WithLoading(p1.signupBtn, true));
      SignupTry(p2, Trim(p.inputs.signupName), Trim(p.inputs.signupEmail), p.inputs.signupPassword,
                create, profile, verify, signOut)
  }

  /** The signup handler's `try` block and its `catch`, from the moment the
      button shows loading. */
  function SignupTry(p: PageState, name: string, email: string, password: string,
                     create: Outcome<User>, profile: Outcome<()>, verify: Outcome<()>, signOut: Outcome<()>): PageState
  {
    var p1 := p.(calls := p.calls + [CreateUserWithEmailAndPassword(email, password)]);
    match create
    case Fail(code) => Caught(p1, SignupButton, code)
    case Ok(user) =>
      var p2 := p1.(signedIn := true, calls := p1.calls + [UpdateProfile(name)]);
      match profile
      case Fail(code) => Caught(p2, SignupButton, code)
      case Ok(_) =>
        var p3 := p2.(calls := p2.calls + [SendEmailVerification(user.email)]);
        match verify
        case Fail(code) => Caught(p3, SignupButton, code)
        case Ok(_) =>
          var p4 := p3.(calls := p3.calls + [SignOut]);
          match signOut
          case Fail(code) => Caught(p4, SignupButton, code)
          case Ok(_) => SignupDone(p4.(signedIn := false))
  }

  /** What follows a successful sign-out: the three signup fields are
      emptied, the Login toggle is clicked, the button stops loading and the
      success message is shown in success colours. */
  function SignupDone(p: PageState): PageState {
    var p1 := p.(inputs := p.inputs.(signupName := "", signupEmail := "", signupPassword := ""));
    var p2 := Toggled(p1, Login);
    var p3 := p2.(signupBtn := WithLoading(p2.signupBtn, false));
    p3.(feedback := Shown(p3.feedback, SignupCompleted).(severity := Success))
  }

  /** What every run of the `try` block does, whatever the provider answers. */
  lemma {:induction false} SignupTryFrame(p: PageState, name: string, email: string, password: string,
                                          create: Outcome<User>, profile: Outcome<()>,
                                          verify: Outcome<()>, signOut: Outcome<()>)
    ensures var q := SignupTry(p, name, email, password, create, profile, verify, signOut);
      q.navigated == p.navigated && q.feedback.resend == None &&
      q.loginBtn == p.loginBtn && q.googleLoginBtn == p.googleLoginBtn && q.googleSignupBtn == p.googleSignupBtn &&
      q.signupBtn == WithLoading(p.signupBtn, false) &&
      |q.calls| > |p.calls| && q.calls[..|p.calls|] == p.calls &&
      q.calls[|p.calls|] == CreateUserWithEmailAndPassword(email, password) &&
      (Coherent(p) ==> Coherent(q))
  {
    var p1 := p.(calls := p.calls + [CreateUserWithEmailAndPassword(email, password)]);
    match create
    case Fail(code) => CaughtCoherent(p1, SignupButton, code);
    case Ok(user) =>
      var p2 := p1.(signedIn := true, calls := p1.calls + [UpdateProfile(name)]);
      match profile
      case Fail(code) => CaughtCoherent(p2, SignupButton, code);
      case Ok(_) =>
        var p3 := p2.(calls := p2.calls + [SendEmailVerification(user.email)]);
        match verify
        case Fail(code) => CaughtCoherent(p3, SignupButton, code);
        case Ok(_) =>
          var p4 := p3.(calls := p3.calls + [SignOut]);
          match signOut
          case Fail(code) => CaughtCoherent(p4, SignupButton, code);
          case Ok(_) =>
  }

  /** When all four provider calls resolve, the `try` block makes them in
      order and ends signed out, on the emptied Login panel, with the success
      message. */
  lemma {:induction false} SignupTrySuccess(p: PageState, name: string, email: string, password: string,
                                            create: Outcome<User>, profile: Outcome<()>,
                                            verify: Outcome<()>, signOut: Outcome<()>)
    requires AllStepsSucceed(create, profile, verify, signOut)
    ensures var q := SignupTry(p, name, email, password, create, profile, verify, signOut);
      q.calls == p.calls + [CreateUserWithEmailAndPassword(email, password), UpdateProfile(name),
                            SendEmailVerification(create.value.email), SignOut] &&
      !q.signedIn && q.inputs == NoInput && ActivePanel(q.tabs) == Some(Login) &&
      q.feedback == Feedback(SignupCompleted, true, Success, None)
  {
    var p1 := p.(calls := p.calls + [CreateUserWithEmailAndPassword(email, password)]);
    var p2 := p1.(signedIn := true, calls := p1.calls + [UpdateProfile(name)]);
    var p3 := p2.(calls := p2.calls + [SendEmailVerification(create.value.email)]);
    var p4 := p3.(calls := p3.calls + [SignOut]);
    assert SignupTry(p, name, email, password, create, profile, verify, signOut) == SignupDone(p4.(signedIn := false));
    assert p4.calls == p.calls + [CreateUserWithEmailAndPassword(email, password), UpdateProfile(name),
                                  SendEmailVerification(create.value.email), SignOut];
  }

  /** When a provider call rejects, the `catch` block shows the first
      failure's message on the unchanged panel; the account, once created,
      stays signed in, and no sign-out was attempted unless it was the
      sign-out that failed. */
  lemma {:induction false} SignupTryFailure(p: PageState, name: string, email: string, password: string,
                                            create: Outcome<User>, profile: Outcome<()>,
                                            verify: Outcome<()>, signOut: Outcome<()>)
    requires !AllStepsSucceed(create, profile, verify, signOut)
    ensures var q := SignupTry(p, name, email, password, create, profile, verify, signOut);
      q.tabs == p.tabs && q.inputs == p.inputs &&
      q.feedback == Shown(p.feedback, ErrorMessage(FirstFailure(create, profile, verify, signOut))) &&
      |q.calls| > |p.calls| &&
      ((create.Fail? || profile.Fail? || verify.Fail?) ==> SignOut !in q.calls[|p.calls|..]) &&
      q.signedIn == (create.Ok? || p.signedIn)
  {
    var p1 := p.(calls := p.calls + [CreateUserWithEmailAndPassword(email, password)]);
    match create
    case Fail(code) =>
      assert p1.calls[|p.calls|..] == [CreateUserWithEmailAndPassword(email, password)];
    case Ok(user) =>
      var p2 := p1.(signedIn := true, calls := p1.calls + [UpdateProfile(name)]);
      match profile
      case Fail(code) =>
        assert p2.calls[|p.calls|..] == [CreateUserWithEmailAndPassword(email, password), UpdateProfile(name)];
      case Ok(_) =>
        var p3 := p2.(calls := p2.calls + [SendEmailVerification(user.email)]);
        match verify
        case Fail(code) =>
          assert p3.calls[|p.calls|..] ==
            [CreateUserWithEmailAndPassword(email, password), UpdateProfile(name), SendEmailVerification(user.email)];
        case Ok(_) =>
  }

  /** Signup never navigates, never touches the other buttons, always removes
      a resend button, keeps the page coherent, and calls the provider exactly
      when the fields pass both local checks, account creation first. */
  lemma SignupFrame(p: PageState, create: Outcome<User>, profile: Outcome<()>,
                    verify: Outcome<()>, signOut: Outcome<()>)
    ensures var q := AfterSignup(p, create, profile, verify, signOut);
      q.navigated == p.navigated && q.feedback.resend == None &&
      q.loginBtn == p.loginBtn && q.googleLoginBtn == p.googleLoginBtn && q.googleSignupBtn == p.googleSignupBtn &&
      (Coherent(p) ==> Coherent(q)) &&
      (q.calls != p.calls <==> SignupReady(p.inputs)) &&
      (SignupReady(p.inputs) ==>
         |q.calls| > |p.calls| && q.calls[..|p.calls|] == p.calls &&
         q.calls[|p.calls|] == CreateUserWithEmailAndPassword(Trim(p.inputs.signupEmail), p.inputs.signupPassword))
  {
    var p1 := p.(feedback := HiddenFeedback);
    if SignupReady(p.inputs) {
      var b := WithLoading(p1.signupBtn, true);
      var p2 := p1.(signupBtn := b);
      if Coherent(p) {
        WithLoadingCoherent(p1.signupBtn, true);
        WithButtonCoherent(p1, SignupButton, b);
      }
      SignupTryFrame(p2, Trim(p.inputs.signupName), Trim(p.inputs.signupEmail), p.inputs.signupPassword,
                     create, profile, verify, signOut);
    }
  }

  /** Empty fields are reported before a short password: a blank name or
      email or an empty password gets the fill-in message whatever the
      password's length; only filled fields reach the length message. Either
      way nothing else changes. */
  lemma SignupStopsLocally(p: PageState, create: Outcome<User>, profile: Outcome<()>,
                           verify: Outcome<()>, signOut: Outcome<()>)
    requires !SignupReady(p.inputs)
    ensures var q := AfterSignup(p, create, profile, verify, signOut);
      q == p.(feedback := Feedback(if SignupFilled(p.inputs) then PasswordTooShort else MissingFields, true, Error, None))
  {
  }

  /** Every step succeeds: four calls in order, signed out, every field
      empty, the Login panel active, the success message in success colours,
      and the signup button back to its label. */
  lemma SignupCompletes(p: PageState, user: User)
    requires SignupReady(p.inputs)
    ensures var q := AfterSignup(p, Ok(user), Ok(()), Ok(()), Ok(()));
      q.calls == p.calls + [CreateUserWithEmailAndPassword(Trim(p.inputs.signupEmail), p.inputs.signupPassword),
                            UpdateProfile(Trim(p.inputs.signupName)),
                            SendEmailVerification(user.email), SignOut] &&
      !q.signedIn && q.inputs == NoInput && ActivePanel(q.tabs) == Some(Login) &&
      q.feedback == Feedback(SignupCompleted, true, Success, None) &&
      q.signupBtn.text == p.signupBtn.text && !q.signupBtn.disabled && !q.signupBtn.loading
  {
    var p1 := p.(feedback := HiddenFeedback);
    var p2 := p1.(signupBtn := WithLoading(p1.signupBtn, true));
    var create, profile, verify, signOut := Ok(user), Ok(()), Ok(()), Ok(());
    SignupTryFrame(p2, Trim(p.inputs.signupName), Trim(p.inputs.signupEmail), p.inputs.signupPassword,
                   create, profile, verify, signOut);
    SignupTrySuccess(p2, Trim(p.inputs.signupName), Trim(p.inputs.signupEmail), p.inputs.signupPassword,
                     create, profile, verify, signOut);
    LoadingRoundTrip(p.signupBtn);
  }

  /** Some step fails: the mapped message of the first failure, panel and
      fields as they were, the button back to its label. A failure before the
      sign-out step means no sign-out call, and once the account exists its
      session stays open. */
  lemma SignupShowsFailure(p: PageState, create: Outcome<User>, profile: Outcome<()>,
                           verify: Outcome<()>, signOut: Outcome<()>)
    requires SignupReady(p.inputs) && !AllStepsSucceed(create, profile, verify, signOut)
    ensures var q := AfterSignup(p, create, profile, verify, signOut);
      q.tabs == p.tabs && q.inputs == p.inputs &&
      q.feedback == Feedback(ErrorMessage(FirstFailure(create, profile, verify, signOut)), true, Error, None) &&
      q.signupBtn.text == p.signupBtn.text && !q.signupBtn.disabled && !q.signupBtn.loading &&
      |q.calls| > |p.calls| &&
      ((create.Fail? || profile.Fail? || verify.Fail?) ==> SignOut !in q.calls[|p.calls|..]) &&
      q.signedIn == (create.Ok? || p.signedIn)
  {
    var p1 := p.(feedback := HiddenFeedback);
    var p2 := p1.(signupBtn := WithLoading(p1.signupBtn, true));
    SignupTryFrame(p2, Trim(p.inputs.signupName), Trim(p.inputs.signupEmail), p.inputs.signupPassword,
                   create, profile, verify, signOut);
    SignupTryFailure(p2, Trim(p.inputs.signupName), Trim(p.inputs.signupEmail), p.inputs.signupPassword,
                     create, profile, verify, signOut);
    LoadingRoundTrip(p.signupBtn);
  }

  // ------------------------------------------------------------------
  // Google popup sign-in
  // ------------------------------------------------------------------

  /** `handleGoogleSignIn(button)`, given what `signInWithPopup` answers. */
  function AfterGoogle(p: PageState, id: ButtonId, popup: Outcome<User>): (q: PageState)
  {
    var p1 := p.(feedback := HiddenFeedback);
    var p2 := WithButton(p1, id, WithLoading(ButtonOf(p1, id), true)).(calls := p1.calls + [SignInWithPopup]);
    match popup
    case Ok(_) => p2.(signedIn := true, navigated := true)
    case Fail(code) =>
      var p3 := if !IsPopupCancellation(code) then p2.(feedback := Shown(p2.feedback, ErrorMessage(code))) else p2;
      WithButton(p3, id, WithLoading(ButtonOf(p3, id), false))
  }

  /** The popup flow makes exactly one call, touches neither panels, fields
      nor the other buttons, and removes a resend button. */
  lemma GoogleFrame(p: PageState, id: ButtonId, popup: Outcome<User>)
    ensures var q := AfterGoogle(p, id, popup);
      q.tabs == p.tabs && q.inputs == p.inputs && q.feedback.resend == None &&
      q.calls == p.calls + [SignInWithPopup] &&
      (id != LoginButton ==> q.loginBtn == p.loginBtn) && (id != SignupButton ==> q.signupBtn == p.signupBtn) &&
      (id != GoogleLoginButton ==> q.googleLoginBtn == p.googleLoginBtn) &&
      (id != GoogleSignupButton ==> q.googleSignupBtn == p.googleSignupBtn)
  {
    var p1 := p.(feedback := HiddenFeedback);
    var p2 := WithButton(p1, id, WithLoading(ButtonOf(p1, id), true)).(calls := p1.calls + [SignInWithPopup]);
    WithButtonOthers(p1, id, WithLoading(ButtonOf(p1, id), true));
    match popup
    case Ok(_) =>
    case Fail(code) =>
      var p3 := if !IsPopupCancellation(code) then p2.(feedback := Shown(p2.feedback, ErrorMessage(code))) else p2;
      WithButtonOthers(p3, id, WithLoading(ButtonOf(p3, id), false));
  }

  /** The popup flow keeps the page coherent. */
  lemma GoogleKeepsCoherent(p: PageState, id: ButtonId, popup: Outcome<User>)
    requires Coherent(p)
    ensures Coherent(AfterGoogle(p, id, popup))
  {
    var p1 := p.(feedback := HiddenFeedback);
    var b := WithLoading(ButtonOf(p1, id), true);
    var p2 := WithButton(p1, id, b).(calls := p1.calls + [SignInWithPopup]);
    WithLoadingCoherent(ButtonOf(p1, id), true);
    WithButtonCoherent(p1, id, b);
    match popup
    case Ok(_) =>
    case Fail(code) =>
      var p3 := if !IsPopupCancellation(code) then p2.(feedback := Shown(p2.feedback, ErrorMessage(code))) else p2;
      WithLoadingCoherent(ButtonOf(p3, id), false);
      WithButtonCoherent(p3, id, WithLoading(ButtonOf(p3, id), false));
  }

  /** A resolved popup signs in and navigates, the button left loading. */
  lemma GoogleNavigates(p: PageState, id: ButtonId, user: User)
    ensures var q := AfterGoogle(p, id, Ok(user));
      q.navigated && q.signedIn && q.feedback == HiddenFeedback &&
      ButtonOf(q, id) == WithLoading(ButtonOf(p, id), true)
  {
  }

  /** A rejected popup: a dismissal leaves the feedback as `hideError` left
      it, hidden and empty; any other code shows its mapped message. Either
      way the page stays and the button gets its label back. */
  lemma GoogleShowsFailure(p: PageState, id: ButtonId, code: Option<string>)
    ensures var q := AfterGoogle(p, id, Fail(code));
      q.navigated == p.navigated && q.signedIn == p.signedIn &&
      q.feedback == (if IsPopupCancellation(code) then HiddenFeedback
                     else Feedback(ErrorMessage(code), true, Error, None)) &&
      ButtonOf(q, id).text == ButtonOf(p, id).text && !ButtonOf(q, id).disabled && !ButtonOf(q, id).loading
  {
  }

  // ------------------------------------------------------------------
  // Relations between handlers
  // ------------------------------------------------------------------

  /** After a completed signup the login fields are empty, so submitting the
      login form straight away stops at the local check. */
  lemma SignupThenLoginStopsLocally(p: PageState, create: Outcome<User>, profile: Outcome<()>,
                                    verify: Outcome<()>, signOut: Outcome<()>,
                                    signIn: Outcome<User>, signOut2: Outcome<()>)
    requires SignupReady(p.inputs) && AllStepsSucceed(create, profile, verify, signOut)
    ensures var q := AfterSignup(p, create, profile, verify, signOut);
      AfterLogin(q, signIn, signOut2) == q.(feedback := Feedback(MissingCredentials, true, Error, None))
  {
  }

  /** The resend button signs in again with exactly the trimmed email and the
      password the refused login submitted. */
  lemma ResendReusesSubmittedCredentials(p: PageState, user: User, signIn: Outcome<User>,
                                         verify: Outcome<()>, signOut: Outcome<()>)
    requires LoginReady(p.inputs) && NeedsVerification(user)
    ensures var q := AfterLogin(p, Ok(user), Ok(()));
      q.feedback.resend.Some? &&
      AfterResend(q, signIn, verify, signOut).calls[|p.calls| + 2] ==
        SignInWithEmailAndPassword(Trim(p.inputs.loginEmail), p.inputs.loginPassword)
  {
    var q := AfterLogin(p, Ok(user), Ok(()));
    LoginRefusesUnverified(p, user);
    ResendFrame(q, signIn, verify, signOut);
  }
}
