/**
 * The global session store: the current user and whether the session is
 * authenticated, with the operations that overwrite them.
 */
module AuthStore {
  import opened Common
  import opened Store
  import opened Auth

  /** The patch with no fields. */
  const EmptyPatch := Patch(None, None, None, None, None, None)

  /** `{ ...user, ...data }`: every field present in the patch overrides the user's. */
  function Merge(u: User, data: Patch): (r: User)
    ensures r.id == (if data.id.Some? then data.id.value else u.id)
    ensures r.name == (if data.name.Some? then data.name.value else u.name)
    ensures r.email == (if data.email.Some? then data.email.value else u.email)
    ensures r.balance == (if data.balance.Some? then data.balance.value else u.balance)
    ensures r.avatar == (if data.avatar.Some? then data.avatar.value else u.avatar)
    ensures r.account == (if data.account.Some? then data.account.value else u.account)
    ensures data == EmptyPatch ==> r == u
  {
    User(data.id.GetOr(u.id), data.name.GetOr(u.name), data.email.GetOr(u.email),
         data.balance.GetOr(u.balance), data.avatar.GetOr(u.avatar), data.account.GetOr(u.account))
  }

  class SessionStore {
    var user: Option<User>
    var isAuthenticated: bool

    /** The store's invariant: authenticated exactly when a user is present. */
    ghost predicate Valid()
      reads this
    {
      isAuthenticated <==> user.Some?
    }

    /** The initial state: nobody signed in. */
    constructor ()
      ensures Valid() && user == None && !isAuthenticated
    {
      user := None;
      isAuthenticated := false;
    }

    /**
     * `register`: a successful registration leaves the session signed out
     * (the new user must log in); a failed one rethrows and changes nothing
     * in the session.
     */
    method Register(db: Database, crypto: Crypto, encodeURIComponent: string -> string,
                    name: string, email: string, password: string,
                    newId: UserId, account: AccountNumber,
                    lookupFails: bool, userInsertFails: bool, balanceInsertFails: bool)
      returns (r: Outcome<string>)
      requires Valid() && newId !in db.users
      modifies this, db
      ensures Valid()
      ensures SeesExisting(old(db.users), email, lookupFails) ==>
                r == Fail(EmailAlreadyRegistered) && db.users == old(db.users) && db.saldo == old(db.saldo)
      ensures !SeesExisting(old(db.users), email, lookupFails) && userInsertFails ==>
                r == Fail(CreateUserFailed) && db.users == old(db.users) && db.saldo == old(db.saldo)
      ensures !SeesExisting(old(db.users), email, lookupFails) && !userInsertFails ==>
                db.users == old(db.users)[newId := NewUserRow(crypto, encodeURIComponent, name, email, password, account)] &&
                (balanceInsertFails ==> r == Fail(InitBalanceFailed) && db.saldo == old(db.saldo)) &&
                (!balanceInsertFails ==> r == Pass && db.saldo == old(db.saldo)[account := Some(0)])
      ensures r.Pass? ==> user == None && !isAuthenticated
      ensures r.Fail? ==> user == old(user) && isAuthenticated == old(isAuthenticated)
    {
      r := RegisterUser(db, crypto, encodeURIComponent, name, email, password, newId, account,
                        lookupFails, userInsertFails, balanceInsertFails);
      if r.Pass? {
        user, isAuthenticated := None, false;
      }
    }

    /** `login`: on success the session holds the returned view; on failure the error is rethrown and nothing changes. */
    method Login(db: Database, crypto: Crypto, email: string, password: string,
                 lookupFails: bool, balanceFault: Option<StoreError>)
      returns (r: Outcome<LoginError>)
      requires Valid()
      modifies this
      ensures Valid()
      ensures lookupFails || !CredentialsMatch(db.users, crypto, email, password) ==>
                r == Fail(InvalidCredentials) && user == old(user) && isAuthenticated == old(isAuthenticated)
      ensures !lookupFails && CredentialsMatch(db.users, crypto, email, password) && balanceFault.Some? ==>
                r == Fail(BalanceQueryFailed(balanceFault.value)) &&
                user == old(user) && isAuthenticated == old(isAuthenticated)
      ensures !lookupFails && CredentialsMatch(db.users, crypto, email, password) && balanceFault.None? ==>
                var id := SingleByEmail(db.users, email).value;
                r == Pass && user == Some(SessionView(id, db.users[id], db.saldo)) && isAuthenticated
    {
      var result := LoginUser(db, crypto, email, password, lookupFails, balanceFault);
      match result
      case Ok(u) =>
        user, isAuthenticated := Some(u), true;
        r := Pass;
      case Err(e) =>
        r := Fail(e);
    }

    /** `logout`: back to the initial state. */
    method Logout()
      modifies this
      ensures Valid() && user == None && !isAuthenticated
    {
      user, isAuthenticated := None, false;
    }

    /**
     * `updateProfile`: does nothing without a current user id (an empty id
     * counts as none); otherwise writes the profile columns and, once the
     * write succeeds, merges every given field into the session's user. A
     * failed write is rethrown and the session is unchanged.
     */
    method UpdateProfile(db: Database, data: Patch, fault: Option<StoreError>) returns (r: Outcome<StoreError>)
      requires Valid()
      modifies this, db
      ensures Valid() && isAuthenticated == old(isAuthenticated)
      ensures db.saldo == old(db.saldo)
      ensures old(user).None? || old(user).value.id == "" ==>
                r == Pass && user == old(user) && db.users == old(db.users)
      ensures old(user).Some? && old(user).value.id != "" ==>
                var id := old(user).value.id;
                if fault.Some? then
                  r == Fail(fault.value) && user == old(user) && db.users == old(db.users)
                else
                  r == Pass && user == Some(Merge(old(user).value, data)) &&
                  db.users == (if id in old(db.users) then old(db.users)[id := ProfileUpdate(old(db.users)[id], data)]
                               else old(db.users))
    {
      if user.None? || user.value.id == "" {
        return Pass;
      }
      r := UpdateUserProfile(db, user.value.id, data, fault);
      if r.Pass? {
        user := if user.Some? then Some(Merge(user.value, data)) else None;
      }
    }

    /** `updateBalance`: only the balance of a present user changes; a missing user stays missing. */
    method UpdateBalance(newBalance: int)
      requires Valid()
      modifies this
      ensures Valid() && isAuthenticated == old(isAuthenticated)
      ensures old(user).None? ==> user == None
      ensures old(user).Some? ==> user == Some(old(user).value.(balance := newBalance))
    {
      user := if user.Some? then Some(user.value.(balance := newBalance)) else None;
    }
  }
}
