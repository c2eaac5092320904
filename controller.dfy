/** The page's script as it runs: the buttons and the page are objects whose
    fields the event handlers update statement by statement. Each handler is
    proved to leave the page in the state the matching transition of `Page`
    describes, so every lemma proved there holds of the handler. */
module Controller {
  import opened Provider
  import opened JsText
  import opened Messages
  import opened Validation
  import opened Page

  /** A form button: its label, `disabled`, the `loading` class and
      `dataset.originalText`. */
  class Button {
    var text: string
    var disabled: bool
    var loading: bool
    var originalText: Option<string>

    function State(): ButtonState
      reads this
    {
      ButtonState(text, disabled, loading, originalText)
    }

    /** An enabled button with its label from the markup. */
    constructor (caption: string)
      ensures State() == ButtonState(caption, false, false, None)
    {
      text := caption;
      disabled := false;
      loading := false;
      originalText := None;
    }

    /** `setButtonLoading(button, isLoading)`. */
    method SetLoading(isLoading: bool)
      modifies this
      ensures State() == WithLoading(old(State()), isLoading)
      ensures ButtonCoherent(State())
    {
      if isLoading {
        disabled := true;
        loading := true;
        originalText := Some(text);
        text := "";
      } else {
        disabled := false;
        loading := false;
        if originalText.Some? && originalText.value != "" {
          text := originalText.value;
        }
      }
    }
  }

  /** The authentication page: the `active` classes of the toggles and forms,
      the five input values, the feedback region (the error element), the four buttons, the
      provider session, whether the page has left for `index.html`, and the
      provider calls made so far. */
  class AuthForm {
    var tabs: Tabs
    var inputs: Inputs
    var feedback: Feedback

    const loginBtn: Button
    const signupBtn: Button
    const googleLoginBtn: Button
    const googleSignupBtn: Button

    var signedIn: bool
    var navigated: bool
    var calls: seq<Call>

    function State(): PageState
      reads this, loginBtn, signupBtn, googleLoginBtn, googleSignupBtn
    {
      PageState(
        tabs, inputs, feedback,
        loginBtn.State(), signupBtn.State(), googleLoginBtn.State(), googleSignupBtn.State(),
        signedIn, navigated, calls)
    }

    /** The four buttons are four distinct objects. */
    predicate Distinct() {
      loginBtn != signupBtn && loginBtn != googleLoginBtn && loginBtn != googleSignupBtn &&
      signupBtn != googleLoginBtn && signupBtn != googleSignupBtn && googleLoginBtn != googleSignupBtn
    }

    /** Distinct buttons, and a coherent page. */
    predicate Valid()
      reads this, loginBtn, signupBtn, googleLoginBtn, googleSignupBtn
    {
      Distinct() && Coherent(State())
    }

    /** The page as loaded, with the buttons' labels from the markup and the
        provider's session as it stands. */
    constructor (loginLabel: string, signupLabel: string, googleLoginLabel: string,
                 googleSignupLabel: string, session: bool)
      ensures Valid()
      ensures State() == Initial(loginLabel, signupLabel, googleLoginLabel, googleSignupLabel, session)
      ensures fresh(loginBtn) && fresh(signupBtn) && fresh(googleLoginBtn) && fresh(googleSignupBtn)
    {
      tabs := Tabs(true, false, true, false);
      inputs := Inputs("", "", "", "", "");
      feedback := Feedback("", false, Error, None);
      loginBtn := new Button(loginLabel);
      signupBtn := new Button(signupLabel);
      googleLoginBtn := new Button(googleLoginLabel);
      googleSignupBtn := new Button(googleSignupLabel);
      signedIn, navigated, calls := session, false, [];
    }

    /** `hideError()`: hidden, emptied, default colours. */
    method HideError()
      modifies this
      ensures State() == old(State()).(feedback := HiddenFeedback)
    {
      feedback := feedback.(shown := false);
      feedback := feedback.(text := "", resend := None);
      feedback := feedback.(severity := Error);
    }

    /** `showError(message)`. */
    method ShowError(message: string)
      modifies this
      ensures State() == old(State()).(feedback := Shown(old(State()).feedback, message))
    {
      feedback := feedback.(text := message, resend := None);
      feedback := feedback.(shown := true);
    }

    /** `clearFormInputs()`. */
    method ClearFormInputs()
      modifies this
      ensures State() == old(State()).(inputs := NoInput)
    {
      inputs := inputs.(loginEmail := "");
      inputs := inputs.(loginPassword := "");
      inputs := inputs.(signupName := "");
      inputs := inputs.(signupEmail := "");
      inputs := inputs.(signupPassword := "");
    }

    /** The user types `v` into field `f`. */
    method Type(f: Field, v: string)
      modifies this
      ensures old(Valid()) ==> Valid()
      ensures State() == old(State()).(inputs := Typed(old(State()).inputs, f, v))
    {
      match f
      case LoginEmail => inputs := inputs.(loginEmail := v);
      case LoginPassword => inputs := inputs.(loginPassword := v);
      case SignupName => inputs := inputs.(signupName := v);
      case SignupEmail => inputs := inputs.(signupEmail := v);
      case SignupPassword => inputs := inputs.(signupPassword := v);
    }

    /** A click on the Login toggle: the panel switch with `hideError`, then
        `clearFormInputs`. */
    method ClickLoginToggle()
      modifies this
      ensures old(Valid()) ==> Valid()
      ensures State() == Toggled(old(State()), Login)
    {
      tabs := tabs.(loginToggle := true);
      tabs := tabs.(signupToggle := false);
      tabs := tabs.(loginForm := true);
      tabs := tabs.(signupForm := false);
      HideError();
      ClearFormInputs();
    }

    /** A click on the Signup toggle, likewise. */
    method ClickSignupToggle()
      modifies this
      ensures old(Valid()) ==> Valid()
      ensures State() == Toggled(old(State()), Signup)
    {
      tabs := tabs.(signupToggle := true);
      tabs := tabs.(loginToggle := false);
      tabs := tabs.(signupForm := true);
      tabs := tabs.(loginForm := false);
      HideError();
      ClearFormInputs();
    }

    /** The login form's submit handler; `signIn` and `signOut` are what the
        provider answers. */
    method SubmitLogin(signIn: Outcome<User>, signOut: Outcome<()>)
      requires Valid()
      modifies this, loginBtn
      ensures Valid()
      ensures State() == AfterLogin(old(State()), signIn, signOut)
    {
      ghost var p := State();
      LoginFrame(p, signIn, signOut);
      HideError();
      var email := Trim(inputs.loginEmail);
      var password := inputs.loginPassword;
      if email == [] || password == [] {
        ShowError(MissingCredentials);
        return;
      }
      loginBtn.SetLoading(true);
      assert AfterLogin(p, signIn, signOut) == LoginTry(State(), email, password, signIn, signOut);
      TryLogin(email, password, signIn, signOut);
    }

    /** The login handler's `try` block and its `catch`, entered with the
        button loading. */
    method TryLogin(email: string, password: string, signIn: Outcome<User>, signOut: Outcome<()>)
      requires Distinct()
      modifies this, loginBtn
      ensures State() == LoginTry(old(State()), email, password, signIn, signOut)
    {
      calls := calls + [SignInWithEmailAndPassword(email, password)];
      match signIn
      case Fail(code) =>
        Catch(LoginButton, code);
      case Ok(user) =>
        signedIn := true;
        if !user.emailVerified && |user.providerIds| > 0 && user.providerIds[0] == "password" {
          calls := calls + [SignOut];
          match signOut
          case Fail(code) =>
            Catch(LoginButton, code);
          case Ok(_) =>
            signedIn := false;
            loginBtn.SetLoading(false);
            ShowError(EmailNotVerified);
            feedback := feedback.(severity := Warning);
            feedback := feedback.(resend := Some(Credentials(email, password)));
        } else {
          navigated := true;
        }
    }

    /** The button object behind each button of the page. */
    function ButtonFor(id: ButtonId): Button {
      match id
      case LoginButton => loginBtn
      case SignupButton => signupBtn
      case GoogleLoginButton => googleLoginBtn
      case GoogleSignupButton => googleSignupBtn
    }

    /** The `catch` block of the email and password handlers: the mapped
        message, then the button out of loading. */
    method Catch(id: ButtonId, code: Option<string>)
      requires Distinct()
      modifies this, ButtonFor(id)
      ensures State() == Caught(old(State()), id, code)
    {
      ShowError(ErrorMessage(code));
      ButtonFor(id).SetLoading(false);
    }

    /** The resend button's click handler, which signs in again with the
        credentials it captured. */
    method ClickResend(signIn: Outcome<User>, verify: Outcome<()>, signOut: Outcome<()>)
      requires Valid() && feedback.resend.Some?
      modifies this
      ensures Valid()
      ensures State() == AfterResend(old(State()), signIn, verify, signOut)
    {
      ghost var p := State();
      ResendFrame(p, signIn, verify, signOut);
      var email, password := feedback.resend.value.email, feedback.resend.value.password;
      calls := calls + [SignInWithEmailAndPassword(email, password)];
      match signIn
      case Fail(_) =>
        ShowError(ResendFailed);
      case Ok(user) =>
        signedIn := true;
        calls := calls + [SendEmailVerification(user.email)];
        match verify
        case Fail(_) =>
          ShowError(ResendFailed);
        case Ok(_) =>
          calls := calls + [SignOut];
          match signOut
          case Fail(_) =>
            ShowError(ResendFailed);
          case Ok(_) =>
            signedIn := false;
            ShowError(VerificationSent);
            feedback := feedback.(severity := Success);
      assert State() == AfterResend(p, signIn, verify, signOut);
    }

    /** The signup form's submit handler; `create`, `profile`, `verify` and
        `signOut` are what the provider answers. */
    method SubmitSignup(create: Outcome<User>, profile: Outcome<()>, verify: Outcome<()>, signOut: Outcome<()>)
      requires Valid()
      modifies this, signupBtn
      ensures Valid()
      ensures State() == AfterSignup(old(State()), create, profile, verify, signOut)
    {
      ghost var p := State();
      SignupFrame(p, create, profile, verify, signOut);
      HideError();
      var name := Trim(inputs.signupName);
      var email := Trim(inputs.signupEmail);
      var password := inputs.signupPassword;
      if name == [] || email == [] || password == [] {
        ShowError(MissingFields);
        return;
      }
      if Utf16Length(password) < 6 {
        ShowError(PasswordTooShort);
        return;
      }
      signupBtn.SetLoading(true);
      assert AfterSignup(p, create, profile, verify, signOut) ==
             SignupTry(State(), name, email, password, create, profile, verify, signOut);
      TrySignup(name, email, password, create, profile, verify, signOut);
    }

    /** The signup handler's `try` block and its `catch`, entered with the
        button loading. */
    method TrySignup(name: string, email: string, password: string, create: Outcome<User>,
                     profile: Outcome<()>, verify: Outcome<()>, signOut: Outcome<()>)
      requires Distinct()
      modifies this, signupBtn
      ensures State() == SignupTry(old(State()), name, email, password, create, profile, verify, signOut)
    {
      calls := calls + [CreateUserWithEmailAndPassword(email, password)];
      match create
      case Fail(code) =>
        Catch(SignupButton, code);
      case Ok(user) =>
        signedIn := true;
        calls := calls + [UpdateProfile(name)];
        match profile
        case Fail(code) =>
          Catch(SignupButton, code);
        case Ok(_) =>
          calls := calls + [SendEmailVerification(user.email)];
          match verify
          case Fail(code) =>
            Catch(SignupButton, code);
          case Ok(_) =>
            calls := calls + [SignOut];
            match signOut
            case Fail(code) =>
              Catch(SignupButton, code);
            case Ok(_) =>
              signedIn := false;
              FinishSignup();
    }

    /** The end of a successful signup: the three fields emptied, the Login
        toggle clicked, the button restored and the success message shown. */
    method FinishSignup()
      requires Distinct()
      modifies this, signupBtn
      ensures State() == SignupDone(old(State()))
    {
      inputs := inputs.(signupName := "");
      inputs := inputs.(signupEmail := "");
      inputs := inputs.(signupPassword := "");
      ClickLoginToggle();
      signupBtn.SetLoading(false);
      ShowError(SignupCompleted);
      feedback := feedback.(severity := Success);
    }

    /** `handleGoogleSignIn(button)` for one of the two Google buttons;
        `popup` is what `signInWithPopup` answers. */
    method HandleGoogleSignIn(button: Button, popup: Outcome<User>)
      requires Distinct() && (button == googleLoginBtn || button == googleSignupBtn)
      modifies this, button
      ensures State() == AfterGoogle(old(State()), if button == googleLoginBtn then GoogleLoginButton
                                                   else GoogleSignupButton, popup)
    {
      HideError();
      button.SetLoading(true);
      calls := calls + [SignInWithPopup];
      match popup
      case Ok(_) =>
        signedIn := true;
        navigated := true;
      case Fail(code) =>
        if !IsPopupCancellation(code) {
          ShowError(ErrorMessage(code));
        }
        button.SetLoading(false);
    }

    /** The listener on the Google button of the login panel. */
    method ClickGoogleLogin(popup: Outcome<User>)
      requires Valid()
      modifies this, googleLoginBtn
      ensures Valid()
      ensures State() == AfterGoogle(old(State()), GoogleLoginButton, popup)
    {
      GoogleKeepsCoherent(State(), GoogleLoginButton, popup);
      HandleGoogleSignIn(googleLoginBtn, popup);
    }

    /** The listener on the Google button of the signup panel. */
    method ClickGoogleSignup(popup: Outcome<User>)
      requires Valid()
      modifies this, googleSignupBtn
      ensures Valid()
      ensures State() == AfterGoogle(old(State()), GoogleSignupButton, popup)
    {
      GoogleKeepsCoherent(State(), GoogleSignupButton, popup);
      HandleGoogleSignIn(googleSignupBtn, popup);
    }
  }
}
