/** What the identity provider hands back to the form controller.
    The provider SDK itself is not modelled: each of its calls becomes an
    `Outcome` passed in by the caller, and the calls the controller makes are
    recorded as `Call` values. */
module Provider {

  datatype Option<+T> = None | Some(value: T)

  /** A provider call either resolves with a value or rejects with an error
      whose `code` may be missing (`undefined` in the page's script). */
  datatype Outcome<+T> = Ok(value: T) | Fail(code: Option<string>)

  /** The user record of a resolved sign-in: its email, its verification flag
      and the ids of its `providerData` entries, in order. */
  datatype User = User(email: string, emailVerified: bool, providerIds: seq<string>)

  /** One call the controller makes into the provider, with the arguments
      that matter. */
  datatype Call =
    | SignInWithEmailAndPassword(email: string, password: string)
    | CreateUserWithEmailAndPassword(email: string, password: string)
    | UpdateProfile(displayName: string)
    | SendEmailVerification(userEmail: string)
    | SignOut
    | SignInWithPopup

  /** The post-sign-in test: the account is unverified and its first provider
      is `password`. With no provider data the optional chain yields
      `undefined`, which is not `password`. */
  predicate NeedsVerification(u: User) {
    !u.emailVerified && |u.providerIds| > 0 && u.providerIds[0] == "password"
  }

  /** The two popup error codes that mean the user dismissed the popup. */
  predicate IsPopupCancellation(code: Option<string>) {
    code == Some("auth/popup-closed-by-user") || code == Some("auth/cancelled-popup-request")
  }
}
