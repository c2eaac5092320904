/** The checks the two submit handlers run on the field values before any
    provider call. */
module Validation {
  import opened JsText
  import opened Messages

  /** Either go on to the provider, or stop with a message for the feedback
      region. */
  datatype Check = Proceed | Reject(message: string)

  /** Login: the trimmed email and the (untrimmed) password must both be
      non-empty; otherwise the form asks for both. */
  function LoginCheck(email: string, password: string): (c: Check)
    ensures c == Proceed <==> !AllJsWhitespace(email) && password != ""
    ensures c != Proceed ==> c == Reject(MissingCredentials)
  {
    if Trim(email) == "" || password == "" then Reject(MissingCredentials) else Proceed
  }

  /** Signup: an empty trimmed name or email or an empty password is reported
      first; only then is the password's length, in UTF-16 code units,
      compared with 6. */
  function SignupCheck(name: string, email: string, password: string): (c: Check)
    ensures c == Reject(MissingFields) <==>
      AllJsWhitespace(name) || AllJsWhitespace(email) || password == ""
    ensures c == Reject(PasswordTooShort) <==>
      !AllJsWhitespace(name) && !AllJsWhitespace(email) && password != "" && Utf16Length(password) < 6
    ensures c == Proceed <==>
      !AllJsWhitespace(name) && !AllJsWhitespace(email) && Utf16Length(password) >= 6
  {
    if Trim(name) == "" || Trim(email) == "" || password == "" then Reject(MissingFields)
    else if Utf16Length(password) < 6 then Reject(PasswordTooShort)
    else Proceed
  }

  /** Six characters always pass the length check, and so do three characters
      outside the Basic Multilingual Plane, which count two units each. */
  lemma {:induction false} LengthCheckCountsCodeUnits(password: string)
    requires |password| >= 6 || (|password| == 3 && forall i | 0 <= i < 3 :: (password[i] as int) >= 0x10000)
    ensures Utf16Length(password) >= 6
  {
    if |password| == 3 && forall i | 0 <= i < 3 :: (password[i] as int) >= 0x10000 {
      var p1 := password[1..];
      var p2 := p1[1..];
      assert p1[0] == password[1] && p2[0] == password[2] && p2[1..] == [];
      assert Utf16Length(p2) == 2;
      assert Utf16Length(p1) == 4;
    }
  }
}
