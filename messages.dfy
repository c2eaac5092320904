/** The user-facing Italian texts of the authentication page: the table that
    maps provider error codes to messages, its generic fallback, and the fixed
    texts the handlers show themselves. */
module Messages {
  import opened Provider

  /** The code-to-message table, entry by entry in the order written in the
      page's script. */
  const ErrorTable: seq<(string, string)> := [
    ("auth/email-already-in-use", "Questa email è già registrata. Prova ad accedere."),
    ("auth/invalid-email", "Email non valida."),
    ("auth/operation-not-allowed", "Operazione non permessa."),
    ("auth/weak-password", "La password deve essere di almeno 6 caratteri."),
    ("auth/user-disabled", "Questo account è stato disabilitato."),
    ("auth/user-not-found", "Nessun account trovato con questa email."),
    ("auth/wrong-password", "Password errata."),
    ("auth/invalid-credential", "Credenziali non valide. Verifica email e password."),
    ("auth/too-many-requests", "Troppi tentativi falliti. Riprova più tardi."),
    ("auth/network-request-failed", "Errore di connessione. Verifica la tua rete."),
    ("auth/popup-closed-by-user", "Login annullato."),
    ("auth/cancelled-popup-request", "Login annullato."),
    ("auth/invalid-api-key", "Configurazione Firebase non valida. Controlla firebase-config.js"),
    ("auth/app-deleted", "Configurazione Firebase non valida."),
    ("auth/unauthorized-domain", "Dominio non autorizzato. Aggiungi questo dominio nella Firebase Console.")
  ]

  const GenericError: string := "Si è verificato un errore. Riprova."

  // Texts the handlers show without going through the table.
  const MissingCredentials: string := "Inserisci email e password."
  const MissingFields: string := "Compila tutti i campi."
  const PasswordTooShort: string := "La password deve essere di almeno 6 caratteri."
  const EmailNotVerified: string := "\U{26A0}\U{FE0F} Email non verificata. Controlla la tua casella di posta e clicca sul link di verifica. Non hai ricevuto l'email?"
  const VerificationSent: string := "\U{2705} Email di verifica inviata! Controlla la tua casella di posta."
  const ResendFailed: string := "Errore durante l'invio dell'email. Riprova più tardi."
  const SignupCompleted: string := "\U{2705} Registrazione completata! Ti abbiamo inviato un'email di verifica. Controlla la tua casella di posta e clicca sul link di conferma prima di effettuare il login."

  predicate DistinctKeys(table: seq<(string, string)>) {
    forall i, j | 0 <= i < j < |table| :: table[i].0 != table[j].0
  }

  predicate IsTableCode(code: string) {
    exists i | 0 <= i < |ErrorTable| :: ErrorTable[i].0 == code
  }

  /** Property lookup on the table object: the message stored under `key`,
      if any. */
  function Lookup(table: seq<(string, string)>, key: string): Option<string> {
    if table == [] then None
    else if table[0].0 == key then Some(table[0].1)
    else Lookup(table[1..], key)
  }

  /** `getFirebaseErrorMessage(errorCode)`: the table entry for the code, or
      the generic text when the code is missing, unknown or maps to an empty
      (falsy) string. Every result is a non-empty text of the table or the
      generic one. */
  function ErrorMessage(code: Option<string>): (m: string)
    ensures m != ""
    ensures m == GenericError || exists i | 0 <= i < |ErrorTable| :: m == ErrorTable[i].1
  {
    match code
    case None => GenericError
    case Some(c) =>
      match Lookup(ErrorTable, c)
      case Some(text) =>
        LookupFindsStored(ErrorTable, c);
        if text != "" then text else GenericError
      case None => GenericError
  }

  /** What a lookup returns is stored in the table. */
  lemma {:induction false} LookupFindsStored(table: seq<(string, string)>, key: string)
    ensures Lookup(table, key).Some? ==>
      exists i | 0 <= i < |table| :: table[i] == (key, Lookup(table, key).value)
  {
    if table != [] && table[0].0 != key {
      LookupFindsStored(table[1..], key);
      if Lookup(table, key).Some? {
        var i :| 0 <= i < |table[1..]| && table[1..][i] == (key, Lookup(table, key).value);
        assert table[i + 1] == table[1..][i];
      }
    }
  }

  /** In a table without repeated keys, each key finds its own entry. */
  lemma {:induction false} LookupEntry(table: seq<(string, string)>, i: nat)
    requires DistinctKeys(table) && i < |table|
    ensures Lookup(table, table[i].0) == Some(table[i].1)
  {
    if i > 0 {
      assert table[1..][i - 1] == table[i];
      LookupEntry(table[1..], i - 1);
    }
  }

  /** A key that no entry carries finds nothing. */
  lemma {:induction false} LookupAbsent(table: seq<(string, string)>, key: string)
    requires forall i | 0 <= i < |table| :: table[i].0 != key
    ensures Lookup(table, key) == None
  {
    if table != [] {
      assert forall i | 0 <= i < |table[1..]| :: table[1..][i] == table[i + 1];
      LookupAbsent(table[1..], key);
    }
  }

  /** No code appears twice in the table and no message is empty. */
  lemma ErrorTableWellFormed()
    ensures DistinctKeys(ErrorTable)
    ensures forall i | 0 <= i < |ErrorTable| :: ErrorTable[i].1 != ""
  {
  }

  /** Each of the fifteen codes yields exactly its own table entry. */
  lemma ErrorMessageOfTableCode(i: nat)
    requires i < |ErrorTable|
    ensures ErrorMessage(Some(ErrorTable[i].0)) == ErrorTable[i].1
  {
    ErrorTableWellFormed();
    var (key, text) := ErrorTable[i];
    LookupEntry(ErrorTable, i);
    assert Lookup(ErrorTable, key) == Some(text) && text != "";
  }

  /** A missing code, or any code outside the table, yields the generic text. */
  lemma ErrorMessageFallback(code: Option<string>)
    requires code.None? || !IsTableCode(code.value)
    ensures ErrorMessage(code) == GenericError
  {
    if code.Some? {
      LookupAbsent(ErrorTable, code.value);
    }
  }

  /** The provider's weak-password text is the same sentence the signup form
      shows when its own length check fails. */
  lemma WeakPasswordMatchesLocalCheck()
    ensures ErrorMessage(Some("auth/weak-password")) == PasswordTooShort
  {
    ErrorMessageOfTableCode(3);
  }
}
