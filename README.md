# Authentication page controller (auth.js), modelled in Dafny

MyNotes signs users in on one page. `auth.js` drives it:

- **Panels.** Two toggle buttons switch between a Login panel and a Signup panel.
- **Feedback region.** A single region shows errors, warnings and success messages.
- **Buttons.** Each submit button and each Google button shows a loading state while the provider works.
- **Provider.** Firebase Authentication is reached through six SDK calls: sign-in with email and password, account creation, profile update, sending the verification email, sign-out, and the Google popup.

This project models that controller.

- `provider.dfy`: what the identity provider answers, and the provider calls the page makes.
  - Every SDK call is replaced by an `Outcome` parameter, `Ok(value)` or `Fail(code)`.
  - The calls the page makes are recorded, in order, as a trace of `Call` values.
- `jstext.dfy`: the two string primitives the handlers use.
  - `String.prototype.trim`, over ECMAScript's white-space and line-terminator set.
  - A string's `length`, which counts UTF-16 code units.
- `messages.dfy`: the fixed Italian texts of the page.
  - The error-code table, searched in its source order, with its generic fallback (`getFirebaseErrorMessage`).
- `validation.dfy`: the local checks the two submit handlers run before calling the provider.
- `page.dfy`: the whole page as one value, `PageState`, and one transition per event handler.
  - `PageState` holds the panels, the five fields, the feedback region, the four buttons, the session, a `navigated` flag and the call trace.
  - The lemmas after each transition state what the page promises for that event.
- `controller.dfy`: the page as the script runs it.
  - A `Button` class: label, `disabled`, `loading` and `originalText`.
  - An `AuthForm` class whose fields the handlers update statement by statement.
  - Every handler is proved to leave `State()` equal to the matching transition of `page.dfy`, and to keep the page coherent. So every lemma in `page.dfy` is a statement about the handler.

Four behaviours of the script are easy to misread; the model follows the script:

- **Signup failures after account creation.** `updateProfile` and `sendEmailVerification` share one `try` block with account creation. A failure of either is not tolerated:
  - the catch block shows the mapped error;
  - no sign-out is attempted, so the newly created account stays signed in;
  - the Signup panel stays active.
- **Order of the signup checks.** The empty-field check runs before the length check.
- **Password length.** The length check counts UTF-16 code units, as `password.length` does.
- **Feedback region.** `showError` assigns `textContent`, which removes an appended resend button. It does not reset the colours: only `hideError` does.

## Model

| member | source | states |
|---|---|---|
| Messages.Lookup | auth.js:116 | Property access `errorMessages[errorCode]` on the table object: the first entry whose code matches, or nothing. Its promises are carried by Messages.LookupEntry, Messages.LookupAbsent and Messages.LookupFindsStored. |
| Messages.ErrorMessage | auth.js:97-117 | Total on every code, including a missing one. Never empty. Always a table message or the generic text. |
| Messages.ErrorTableWellFormed | auth.js:98-114 | No code appears twice in the table, and no message is empty. |
| Messages.ErrorMessageOfTableCode | auth.js:98-116 | Each of the fifteen listed codes yields exactly its own table entry. |
| Messages.ErrorMessageFallback | auth.js:116 | A missing code, or any code outside the table, yields "Si è verificato un errore. Riprova.". |
| Messages.WeakPasswordMatchesLocalCheck | auth.js:102 | The provider's weak-password message is the same sentence as the local length message. |
| Messages.LookupEntry | auth.js:116 | Property lookup in a table without repeated keys finds each key's own entry. |
| Messages.LookupAbsent | auth.js:116 | Property lookup of a key that no entry carries finds nothing. |
| Messages.LookupFindsStored | auth.js:116 | Whatever a property lookup returns is stored in the table under that key. |
| JsText.IsJsWhitespace | auth.js:127 | The code points `trim` removes: ECMAScript's WhiteSpace and LineTerminator set (tab, line feed, vertical tab, form feed, carriage return, space, no-break space, the Unicode space separators, line and paragraph separators, the byte-order mark). Used by the contracts of JsText.TrimStart, JsText.TrimEnd and JsText.Trim. |
| JsText.TrimStart | auth.js:127 | Result: the suffix of the input that starts at its first non-white-space character; everything dropped is white space. |
| JsText.TrimEnd | auth.js:127 | Result: the prefix of the input that ends at its last non-white-space character; everything dropped is white space. |
| JsText.Trim | auth.js:127 | Result: a slice of the input with only white space on either side. It starts and ends with a non-white-space character. It is empty exactly when the input is all white space. |
| JsText.Utf16Length | auth.js:206 | Between the number of characters and twice that number. Equal to the number of characters exactly when every character lies in the Basic Multilingual Plane. |
| Validation.LoginCheck | auth.js:127-133 | Login proceeds exactly when the trimmed email and the password are both non-empty. Otherwise it rejects with "Inserisci email e password.". |
| Validation.SignupCheck | auth.js:197-209 | Three cases, each stated as if and only if. "Compila tutti i campi." when a trimmed name, a trimmed email or the password is empty. The length message when all are filled but the password is under 6 code units. Proceed otherwise. |
| Validation.LengthCheckCountsCodeUnits | auth.js:206 | Six characters always pass the length check. So do three characters outside the Basic Multilingual Plane. |
| Provider.NeedsVerification | auth.js:142 | An unverified account whose first provider id is `password`. With no provider data the optional chain gives `undefined`, so such an account does not need verification. Page.LoginFrame, Page.LoginNavigates and Page.LoginRefusesUnverified state what the login handler does on each side of this test. |
| Provider.IsPopupCancellation | auth.js:271-272 | The two dismissal codes, `auth/popup-closed-by-user` and `auth/cancelled-popup-request`. Page.GoogleShowsFailure states that exactly these leave the feedback hidden. |
| Page.Shown | auth.js:70-73 | `showError`: the message, shown, colours kept, resend button removed. Controller.AuthForm.ShowError is proved to produce it. |
| Page.WithLoading | auth.js:84-95 | `setButtonLoading` on a button value. Its promises are carried by Page.LoadingRoundTrip and Page.WithLoadingCoherent, and Controller.Button.SetLoading is proved to produce it. |
| Page.Caught | auth.js:182-186 | The catch block: the mapped message, then the button out of loading. Page.CaughtCoherent, Page.LoginShowsFailure and Page.SignupShowsFailure carry its promises. |
| Page.AfterLogin | auth.js:123-187 | The login submit handler as a transition. Its promises are carried by Page.LoginFrame, Page.LoginStopsLocally, Page.LoginNavigates, Page.LoginRefusesUnverified and Page.LoginShowsFailure. |
| Page.LoginTry | auth.js:137-186 | The login try and catch blocks from the loading button on. Page.LoginTryFrame carries its promises. |
| Page.Refused | auth.js:149-176 | After the sign-out of an unverified account: button restored, warning shown with a resend button holding the credentials. Page.LoginRefusesUnverified carries its promises. |
| Page.AfterResend | auth.js:160-174 | The resend button's handler as a transition. Page.ResendFrame, Page.ResendSucceeds, Page.ResendShowsFailure and Page.ResendReusesSubmittedCredentials carry its promises. |
| Page.AfterSignup | auth.js:193-250 | The signup submit handler as a transition. Page.SignupFrame, Page.SignupStopsLocally, Page.SignupCompletes and Page.SignupShowsFailure carry its promises. |
| Page.SignupTry | auth.js:213-249 | The signup try and catch blocks from the loading button on. Page.SignupTryFrame, Page.SignupTrySuccess and Page.SignupTryFailure carry its promises. |
| Page.SignupDone | auth.js:230-243 | The end of a successful signup: three fields cleared, Login toggle clicked, button restored, success shown. Page.SignupTrySuccess and Page.SignupCompletes carry its promises. |
| Page.AfterGoogle | auth.js:256-278 | `handleGoogleSignIn` as a transition. Page.GoogleFrame, Page.GoogleKeepsCoherent, Page.GoogleNavigates and Page.GoogleShowsFailure carry its promises. |
| Page.Initial | auth.js:20-37 | The page as loaded is coherent: Login panel active, fields empty, feedback hidden, each of the four buttons enabled, not loading, with its own label and no saved label, no provider call made, not navigated, session as given. |
| Page.LoadingRoundTrip | auth.js:84-95 | While loading, the button is disabled and blank. Loading then not loading restores the label and enables the button. |
| Page.WithLoadingCoherent | auth.js:84-95 | Either call of `setButtonLoading` leaves the button disabled exactly while it is loading, and blank while loading. |
| Page.CaughtCoherent | auth.js:182-186 | The catch block (show the mapped message, then stop loading) keeps the page coherent. |
| Page.Toggled | auth.js:50-64 | After a toggle click exactly one panel is active, the clicked one. The feedback is hidden, empty and back in default colours. All five fields are empty. Nothing else changes. Coherence is kept. |
| Page.ToggleIdempotent | auth.js:50-64 | Clicking the same toggle twice is the same as clicking it once. |
| Page.LoginTryFrame | auth.js:137-186 | The login try block signs in with the submitted credentials first. A resend button is left exactly when an unverified password account was signed out again. The page navigates exactly when any other account signed in. |
| Page.LoginFrame | auth.js:123-187 | Login leaves the panels, the fields and the other buttons alone, and keeps coherence. A resend button appears exactly when an unverified password account was signed out. The page navigates exactly when the checks pass and any other account signs in. |
| Page.LoginStopsLocally | auth.js:127-133 | A blank email or an empty password gives the request message. No provider call. Nothing else changes. |
| Page.LoginNavigates | auth.js:142-181 | A verified account, or one whose first provider is not `password`: one sign-in call, navigation, session kept, feedback cleared. |
| Page.LoginRefusesUnverified | auth.js:142-176 | An unverified password account: sign-in then sign-out, no navigation, button restored. A warning is shown with a resend button holding the trimmed email and the password. |
| Page.LoginShowsFailure | auth.js:182-186 | A rejected sign-in, or a rejected sign-out: that rejection's mapped message, no navigation, button restored. |
| Page.ResendFrame | auth.js:160-174 | The resend handler changes only the feedback, the session and the call trace, and keeps coherence. It signs in again with the captured credentials and stops at the first failure. |
| Page.ResendSucceeds | auth.js:161-169 | All three steps succeed: signed out, and the success message is shown in success colours. |
| Page.ResendShowsFailure | auth.js:170-173 | Any step fails: the resend error is shown in the colours the region already had. A session opened by the repeated sign-in stays open. |
| Page.SignupTryFrame | auth.js:213-249 | The signup try block creates the account first, never navigates, restores the button and keeps coherence. |
| Page.SignupTrySuccess | auth.js:213-243 | All four steps succeed: the calls are made in order, and the end state is signed out, fields empty, Login panel active, success message shown. |
| Page.SignupTryFailure | auth.js:245-249 | Some step fails: the first failure's mapped message is shown on the unchanged panel. No sign-out is called unless it was the sign-out that failed. |
| Page.SignupFrame | auth.js:193-250 | Signup never navigates, never touches the other buttons, and keeps coherence. It calls the provider exactly when both local checks pass, account creation first. |
| Page.SignupStopsLocally | auth.js:197-209 | Either check fails: the fill-in message when a field is empty, whatever the length, otherwise the length message. No other change. |
| Page.SignupCompletes | auth.js:228-243 | Every step succeeds: create, update profile, send verification and sign-out, in that order. The end state is signed out, all fields empty, Login panel active, success message in success colours, button restored. |
| Page.SignupShowsFailure | auth.js:213-249 | Some step fails: the first failure's mapped message, panel and fields unchanged, button restored. No sign-out call after an earlier failure. The created account stays signed in. |
| Page.GoogleFrame | auth.js:256-278 | The popup flow makes exactly one call. It leaves the panels, the fields and the other three buttons alone, and removes a resend button. |
| Page.GoogleKeepsCoherent | auth.js:256-278 | The popup flow keeps the page coherent. |
| Page.GoogleNavigates | auth.js:262-266 | A resolved popup signs in and navigates, with the button still loading. |
| Page.GoogleShowsFailure | auth.js:267-277 | A dismissal code leaves the feedback hidden and empty. Any other code shows its mapped message. In both cases the button is restored and the page stays. |
| Page.SignupThenLoginStopsLocally | auth.js:231-236 | After a completed signup the fields are empty, so an immediate login submit stops at the local check. |
| Page.ResendReusesSubmittedCredentials | auth.js:160-163 | The resend button signs in again with exactly the trimmed email and the password the refused login submitted. |
| Controller.Button.constructor | auth.js:29-37 | A button starts enabled, not loading, with its markup label and no saved label. |
| Controller.Button.SetLoading | auth.js:84-95 | `setButtonLoading` leaves the button in the state `WithLoading` describes, disabled exactly while loading. |
| Controller.AuthForm.constructor | auth.js:20-37 | The page object as loaded equals `Initial` and is valid, and its four buttons are newly allocated, so the handlers may change them. |
| Controller.AuthForm.HideError | auth.js:75-82 | The feedback becomes hidden, empty, default colours, no resend button. Nothing else changes. |
| Controller.AuthForm.ShowError | auth.js:70-73 | The message is shown with the colours unchanged, and any resend button is gone. Nothing else changes. |
| Controller.AuthForm.ClearFormInputs | auth.js:287-293 | All five fields become empty. Nothing else changes. |
| Controller.AuthForm.Type | auth.js:27-35 | The user's typing sets one field's value. Nothing else changes, and a valid page stays valid. |
| Controller.AuthForm.ClickLoginToggle | auth.js:50-56 | Both listeners of the Login toggle (this one and the one at line 295) leave the page as `Toggled(_, Login)`, and a valid page stays valid. |
| Controller.AuthForm.ClickSignupToggle | auth.js:58-64 | Both listeners of the Signup toggle (this one and the one at line 296) leave the page as `Toggled(_, Signup)`, and a valid page stays valid. |
| Controller.AuthForm.SubmitLogin | auth.js:123-187 | The login submit handler keeps the page valid and leaves it as `AfterLogin`. |
| Controller.AuthForm.TryLogin | auth.js:137-186 | The login try and catch blocks leave the page as `LoginTry`. |
| Controller.AuthForm.Catch | auth.js:182-186 | The catch block leaves the page as `Caught`: mapped message, then button restored. |
| Controller.AuthForm.ClickResend | auth.js:160-174 | The resend button's handler keeps the page valid and leaves it as `AfterResend`. |
| Controller.AuthForm.SubmitSignup | auth.js:193-250 | The signup submit handler keeps the page valid and leaves it as `AfterSignup`. |
| Controller.AuthForm.TrySignup | auth.js:213-249 | The signup try and catch blocks leave the page as `SignupTry`. |
| Controller.AuthForm.FinishSignup | auth.js:230-243 | Clear the three fields, click the Login toggle, restore the button, show success: the page becomes `SignupDone`. |
| Controller.AuthForm.HandleGoogleSignIn | auth.js:256-278 | `handleGoogleSignIn(button)` leaves the page as `AfterGoogle` for that button. |
| Controller.AuthForm.ClickGoogleLogin | auth.js:280 | The login panel's Google listener keeps the page valid and leaves it as `AfterGoogle` for that button. |
| Controller.AuthForm.ClickGoogleSignup | auth.js:281 | The signup panel's Google listener keeps the page valid and leaves it as `AfterGoogle` for that button. |

## Left out

- analytics-config.js is not part of this model. It only injects script tags and pushes timestamped entries to a global queue.
- The Firebase SDK is not modelled. Each call's answer is a parameter, and the calls made are recorded in `calls`. The session the SDK keeps is reduced to a `signedIn` flag, and the user record to its email, its verification flag and its provider ids.
- `onAuthStateChanged`, `e.preventDefault()` and the construction of `GoogleAuthProvider` are left out: none of them affects the page state modelled here.
- Asynchrony is not modelled. Each handler runs as one atomic step, as if the provider answered at once. Interleaved events while a provider call is pending are not covered.
- Colours, `style.cssText`, the resend button's DOM node and the console output are not modelled. The colours are reduced to a severity (error, warning or success). The resend button is reduced to the credentials its handler captured.
- `window.location.href = 'index.html'` is the `navigated` flag. The page's unloading is not modelled.
- The page's markup is not part of this model. The initial state (Login panel active, empty fields, hidden feedback, enabled buttons) is assumed.
- Messages.ErrorMessage: a code naming an inherited `Object.prototype` property, such as `constructor`, is treated like any other unknown code, because the prototype chain of the table object is not modelled.
- JsText.Utf16Length: strings are sequences of Unicode scalar values, so a lone surrogate code unit cannot occur in the model.
