/**
 * The account operations of the authentication library: login, registration,
 * profile update and password change, each an ordered sequence of reads,
 * verifications and writes against the `users` and `saldo` tables with early
 * exits by thrown error.
 */
module Auth {
  import opened Common
  import opened Store

  /** The session-facing account view returned by a successful login. */
  datatype User = User(
    id: UserId,
    name: string,
    email: string,
    balance: int,
    avatar: string,
    account: AccountNumber)

  /** `Partial<User>`: a field that is `None` is absent from the object. */
  datatype Patch = Patch(
    id: Option<UserId>,
    name: Option<string>,
    email: Option<string>,
    balance: Option<int>,
    avatar: Option<string>,
    account: Option<AccountNumber>)

  /** What a failed login throws: the fixed credentials error, or the balance query's own error. */
  datatype LoginError = InvalidCredentials | BalanceQueryFailed(cause: StoreError)

  const EmailAlreadyRegistered := "Email already registered"
  const CreateUserFailed := "Failed to create user account"
  const InitBalanceFailed := "Failed to initialize account balance"
  const UserNotFound := "User not found"
  const InvalidOldPassword := "Invalid old password"
  const UpdatePasswordFailed := "Failed to update password"

  /** The avatar address stored for a new user, seeded with the URI-encoded name. */
  const AvatarService := "https://api.dicebear.com/7.x/initials/svg?seed="

  /** The login check: exactly one row has the email and the password verifies against its hash. */
  ghost predicate CredentialsMatch(users: map<UserId, UserRow>, crypto: Crypto, email: string, password: string) {
    var found := SingleByEmail(users, email);
    found.Some? && crypto.verifyPassword(password, users[found.value].password)
  }

  /** `balanceData?.saldo || 0`: the stored balance, or 0 when the row or the value is missing. */
  function BalanceOf(saldo: map<AccountNumber, Option<int>>, account: AccountNumber): int {
    if account in saldo then saldo[account].GetOr(0) else 0
  }

  /** The account view composed from a user row and the balance table. */
  function SessionView(id: UserId, row: UserRow, saldo: map<AccountNumber, Option<int>>): User {
    User(id, row.name, row.email, BalanceOf(saldo, row.account), row.avatarUrl, row.account)
  }

  /**
   * `loginUser`. An unknown (or ambiguous) email, a failed lookup and a
   * wrong password throw the same error; a failing balance query throws that
   * query's error; on success the view holds the row's fields and the stored
   * balance. Nothing is written.
   */
  method LoginUser(db: Database, crypto: Crypto, email: string, password: string,
                   lookupFails: bool, balanceFault: Option<StoreError>)
    returns (r: Result<User, LoginError>)
    ensures lookupFails || !CredentialsMatch(db.users, crypto, email, password) ==> r == Err(InvalidCredentials)
    ensures !lookupFails && CredentialsMatch(db.users, crypto, email, password) && balanceFault.Some? ==>
              r == Err(BalanceQueryFailed(balanceFault.value))
    ensures !lookupFails && CredentialsMatch(db.users, crypto, email, password) && balanceFault.None? ==>
              var id := SingleByEmail(db.users, email).value;
              r == Ok(SessionView(id, db.users[id], db.saldo))
  {
    if lookupFails {
      return Err(InvalidCredentials);
    }
    var found := SelectSingleByEmail(db, email);
    if found.None? {
      return Err(InvalidCredentials);
    }
    var id := found.value;
    var row := db.users[id];
    var valid := crypto.verifyPassword(password, row.password);
    if !valid {
      return Err(InvalidCredentials);
    }
    if balanceFault.Some? {
      return Err(BalanceQueryFailed(balanceFault.value));
    }
    return Ok(SessionView(id, row, db.saldo));
  }

  /** The row `registerUser` inserts: the password column holds the hash, the pin column is left null. */
  function NewUserRow(crypto: Crypto, encodeURIComponent: string -> string, name: string, email: string,
                      password: string, account: AccountNumber): UserRow
  {
    UserRow(name, email, crypto.hashPassword(password), account, AvatarService + encodeURIComponent(name), None)
  }

  /**
   * What `registerUser` sees of an existing account: the lookup's data. A
   * failed lookup reports an error and no data, and the error is not
   * inspected, so it reads as "no such email".
   */
  ghost predicate SeesExisting(users: map<UserId, UserRow>, email: string, lookupFails: bool) {
    !lookupFails && SingleByEmail(users, email).Some?
  }

  /**
   * `registerUser`. `newId` is the id the database assigns to the inserted
   * row, `account` the freshly generated account number, and the flags say
   * whether the email lookup and each insert report an error.
   */
  method RegisterUser(db: Database, crypto: Crypto, encodeURIComponent: string -> string,
                      name: string, email: string, password: string,
                      newId: UserId, account: AccountNumber,
                      lookupFails: bool, userInsertFails: bool, balanceInsertFails: bool)
    returns (r: Outcome<string>)
    requires newId !in db.users
    modifies db
    ensures SeesExisting(old(db.users), email, lookupFails) ==>
              r == Fail(EmailAlreadyRegistered) && db.users == old(db.users) && db.saldo == old(db.saldo)
    ensures !SeesExisting(old(db.users), email, lookupFails) && userInsertFails ==>
              r == Fail(CreateUserFailed) && db.users == old(db.users) && db.saldo == old(db.saldo)
    ensures !SeesExisting(old(db.users), email, lookupFails) && !userInsertFails ==>
              db.users == old(db.users)[newId := NewUserRow(crypto, encodeURIComponent, name, email, password, account)] &&
              (balanceInsertFails ==> r == Fail(InitBalanceFailed) && db.saldo == old(db.saldo)) &&
              (!balanceInsertFails ==> r == Pass && db.saldo == old(db.saldo)[account := Some(0)])
    ensures EmailsUnique(old(db.users)) && (!lookupFails || WithEmail(old(db.users), email) == {}) ==>
              EmailsUnique(db.users)
    ensures lookupFails && !userInsertFails && WithEmail(old(db.users), email) != {} ==>
              !EmailsUnique(db.users)
  {
    var existing: Option<UserId> := None;
    if !lookupFails {
      existing := SelectSingleByEmail(db, email);
    }
    if existing.Some? {
      return Fail(EmailAlreadyRegistered);
    }
    ghost var before := db.users;
    var row := NewUserRow(crypto, encodeURIComponent, name, email, password, account);
    if userInsertFails {
      return Fail(CreateUserFailed);
    }
    db.users := db.users[newId := row];
    if EmailsUnique(before) && (!lookupFails || WithEmail(before, email) == {}) {
      SingleWhenUnique(before, email);
      assert EmailsUnique(db.users);
    }
    if lookupFails && WithEmail(before, email) != {} {
      var other :| other in WithEmail(before, email);
      assert other != newId && db.users[other].email == db.users[newId].email;
    }
    if balanceInsertFails {
      return Fail(InitBalanceFailed);
    }
    db.saldo := db.saldo[account := Some(0)];
    return Pass;
  }

  /**
   * The `update` that `updateUserProfile` sends: `name` and `avatar_url`
   * take the patch's values where it has them; no other column changes.
   */
  function ProfileUpdate(row: UserRow, data: Patch): (r: UserRow)
    ensures r.email == row.email && r.password == row.password
    ensures r.account == row.account && r.pin == row.pin
    ensures r.name == (if data.name.Some? then data.name.value else row.name)
    ensures r.avatarUrl == (if data.avatar.Some? then data.avatar.value else row.avatarUrl)
  {
    row.(name := data.name.GetOr(row.name), avatarUrl := data.avatar.GetOr(row.avatarUrl))
  }

  /** `updateUserProfile`: an update by id, which changes no row when the id is unknown; the store's error is rethrown. */
  method UpdateUserProfile(db: Database, userId: UserId, data: Patch, fault: Option<StoreError>)
    returns (r: Outcome<StoreError>)
    modifies db
    ensures db.saldo == old(db.saldo)
    ensures fault.Some? ==> r == Fail(fault.value) && db.users == old(db.users)
    ensures fault.None? && userId in old(db.users) ==>
              r == Pass && db.users == old(db.users)[userId := ProfileUpdate(old(db.users)[userId], data)]
    ensures fault.None? && userId !in old(db.users) ==> r == Pass && db.users == old(db.users)
  {
    if fault.Some? {
      return Fail(fault.value);
    }
    if userId in db.users {
      db.users := db.users[userId := ProfileUpdate(db.users[userId], data)];
    }
    return Pass;
  }

  /**
   * `changeUserPassword`: a failed lookup and an unknown id both throw
   * 'User not found'; the old password is verified against the stored
   * hash before anything is written; only that row's `password` column is
   * replaced, by the hash of the new password.
   */
  method ChangeUserPassword(db: Database, crypto: Crypto, userId: UserId, oldPassword: string, newPassword: string,
                            lookupFails: bool, updateFails: bool)
    returns (r: Outcome<string>)
    modifies db
    ensures db.saldo == old(db.saldo)
    ensures lookupFails || userId !in old(db.users) ==> r == Fail(UserNotFound) && db.users == old(db.users)
    ensures !lookupFails && userId in old(db.users) && !crypto.verifyPassword(oldPassword, old(db.users)[userId].password) ==>
              r == Fail(InvalidOldPassword) && db.users == old(db.users)
    ensures !lookupFails && userId in old(db.users) && crypto.verifyPassword(oldPassword, old(db.users)[userId].password) ==>
              if updateFails then r == Fail(UpdatePasswordFailed) && db.users == old(db.users)
              else r == Pass &&
                   db.users == old(db.users)[userId := old(db.users)[userId].(password := crypto.hashPassword(newPassword))]
  {
    if lookupFails || userId !in db.users {
      return Fail(UserNotFound);
    }
    var row := db.users[userId];
    var valid := crypto.verifyPassword(oldPassword, row.password);
    if !valid {
      return Fail(InvalidOldPassword);
    }
    var hashed := crypto.hashPassword(newPassword);
    if updateFails {
      return Fail(UpdatePasswordFailed);
    }
    db.users := db.users[userId := row.(password := hashed)];
    return Pass;
  }

  /**
   * Registration and login fit together: when hashing and verification
   * agree on the password, the row registration inserts for a new email
   * passes the login check, and the login view shows balance 0.
   */
  lemma RegisteredCanLogIn(users: map<UserId, UserRow>, saldo: map<AccountNumber, Option<int>>, crypto: Crypto,
                           encodeURIComponent: string -> string, name: string, email: string, password: string,
                           newId: UserId, account: AccountNumber)
    requires EmailsUnique(users) && newId !in users && SingleByEmail(users, email).None?
    requires crypto.verifyPassword(password, crypto.hashPassword(password))
    ensures var after := users[newId := NewUserRow(crypto, encodeURIComponent, name, email, password, account)];
            CredentialsMatch(after, crypto, email, password) && SingleByEmail(after, email) == Some(newId) &&
            SessionView(newId, after[newId], saldo[account := Some(0)]).balance == 0
  {
    var after := users[newId := NewUserRow(crypto, encodeURIComponent, name, email, password, account)];
    SingleWhenUnique(users, email);
    assert WithEmail(after, email) == {newId};
  }

  /**
   * Changing a password keeps every row's email, so login finds the same
   * row afterwards and checks the new hash: with hashing and verification
   * agreeing on the new password, that password passes the login check.
   */
  lemma ChangedPasswordLogsIn(users: map<UserId, UserRow>, crypto: Crypto, userId: UserId, email: string,
                              newPassword: string)
    requires userId in users && users[userId].email == email && SingleByEmail(users, email) == Some(userId)
    requires crypto.verifyPassword(newPassword, crypto.hashPassword(newPassword))
    ensures var after := users[userId := users[userId].(password := crypto.hashPassword(newPassword))];
            SingleByEmail(after, email) == Some(userId) && CredentialsMatch(after, crypto, email, newPassword)
  {
    var after := users[userId := users[userId].(password := crypto.hashPassword(newPassword))];
    assert WithEmail(after, email) == WithEmail(users, email);
  }
}
