/**
 * The registration form's submit handler: the password rule (from the shared
 * validation helper), then the confirmation, then the store's `register`,
 * whose thrown message is mapped to one of two user-facing texts.
 */
module RegisterForm {
  import opened Common
  import opened Store
  import opened Auth
  import AuthStore

  const PasswordsDiffer := "As senhas não coincidem"
  const AlreadyRegisteredText := "Este e-mail já está registrado. Por favor, faça login."
  const RegistrationFailedText := "Falha no registro. Por favor, tente novamente."

  /**
   * The checks made before `register` is called, in their order: the
   * helper's password error wins over a mismatch. `None` means both passed.
   */
  function PreCheck(validatePassword: string -> Option<string>, password: string, confirmPassword: string): (r: Option<string>)
    ensures validatePassword(password).Some? ==> r == validatePassword(password)
    ensures validatePassword(password).None? ==> (r.Some? <==> password != confirmPassword)
    ensures r.Some? && validatePassword(password).None? ==> r.value == PasswordsDiffer
  {
    var passwordError := validatePassword(password);
    if passwordError.Some? then passwordError
    else if password != confirmPassword then Some(PasswordsDiffer)
    else None
  }

  /** The text shown for an error thrown by `register`, chosen by its message. */
  function RegisterErrorText(message: string): (text: string)
    ensures text == AlreadyRegisteredText <==> Includes(message, "already registered")
    ensures text == AlreadyRegisteredText || text == RegistrationFailedText
  {
    if Includes(message, "already registered") then AlreadyRegisteredText else RegistrationFailedText
  }

  /** A message without the letter 'y' does not include "already registered". */
  lemma WithoutY(message: string)
    requires 'y' !in message
    ensures !Includes(message, "already registered")
  {
    if Includes(message, "already registered") {
      IncludedCharacters(message, "already registered", 'y');
      assert false;
    }
  }

  /**
   * The three errors registration can throw reach the user as: "already
   * registered" for a taken email, the generic failure text for either
   * failed insert.
   */
  lemma RegisterErrorsShown()
    ensures RegisterErrorText(EmailAlreadyRegistered) == AlreadyRegisteredText
    ensures RegisterErrorText(CreateUserFailed) == RegistrationFailedText
    ensures RegisterErrorText(InitBalanceFailed) == RegistrationFailedText
  {
    assert OccursAt(EmailAlreadyRegistered, "already registered", 6);
    WithoutY(CreateUserFailed);
    WithoutY(InitBalanceFailed);
  }

  class RegisterForm {
    var name: string
    var email: string
    var password: string
    var confirmPassword: string
    var error: string

    constructor ()
      ensures name == email == password == confirmPassword == error == ""
    {
      name, email, password, confirmPassword, error := "", "", "", "", "";
    }

    /**
     * `handleSubmit`. The previous error is cleared first; a failed check
     * sets its text and calls nothing; otherwise `register` runs and its
     * outcome decides between navigating away and showing an error text.
     */
    method HandleSubmit(store: AuthStore.SessionStore, db: Database, crypto: Crypto,
                        encodeURIComponent: string -> string, validatePassword: string -> Option<string>,
                        newId: UserId, account: AccountNumber,
                        lookupFails: bool, userInsertFails: bool, balanceInsertFails: bool)
      returns (navigated: bool)
      requires store.Valid() && newId !in db.users
      modifies this, store, db
      ensures store.Valid()
      ensures name == old(name) && email == old(email) && password == old(password)
      ensures confirmPassword == old(confirmPassword)
      ensures PreCheck(validatePassword, password, confirmPassword).Some? ==>
                !navigated && error == PreCheck(validatePassword, password, confirmPassword).value &&
                db.users == old(db.users) && db.saldo == old(db.saldo) &&
                store.user == old(store.user) && store.isAuthenticated == old(store.isAuthenticated)
      ensures PreCheck(validatePassword, password, confirmPassword).None? ==>
                if SeesExisting(old(db.users), email, lookupFails) then
                  !navigated && error == AlreadyRegisteredText &&
                  db.users == old(db.users) && db.saldo == old(db.saldo) &&
                  store.user == old(store.user) && store.isAuthenticated == old(store.isAuthenticated)
                else if userInsertFails then
                  !navigated && error == RegistrationFailedText &&
                  db.users == old(db.users) && db.saldo == old(db.saldo) &&
                  store.user == old(store.user) && store.isAuthenticated == old(store.isAuthenticated)
                else
                  db.users == old(db.users)[newId := NewUserRow(crypto, encodeURIComponent, name, email, password, account)] &&
                  if balanceInsertFails then
                    !navigated && error == RegistrationFailedText && db.saldo == old(db.saldo) &&
                    store.user == old(store.user) && store.isAuthenticated == old(store.isAuthenticated)
                  else
                    navigated && error == "" && store.user.None? && !store.isAuthenticated &&
                    db.saldo == old(db.saldo)[account := Some(0)]
    {
      error := "";
      navigated := false;
      var passwordError := validatePassword(password);
      if passwordError.Some? {
        error := passwordError.value;
        return;
      }
      if password != confirmPassword {
        error := PasswordsDiffer;
        return;
      }
      var r := store.Register(db, crypto, encodeURIComponent, name, email, password, newId, account,
                              lookupFails, userInsertFails, balanceInsertFails);
      RegisterErrorsShown();
      match r
      case Pass =>
        navigated := true;
      case Fail(message) =>
        error := RegisterErrorText(message);
    }
  }
}
