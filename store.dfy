/**
 * The two database tables the account code reads and writes, `users` and
 * `saldo`, and the password-hashing service, all reached as abstract
 * collaborators. The hosted database client is replaced by a class holding
 * the two tables as maps; each call that can fail is given its outcome by
 * the caller.
 */
module Store {
  import opened Common

  type UserId = string
  type AccountNumber = string

  /** A row of the `users` table, keyed by its id. `pin` is a nullable column. */
  datatype UserRow = UserRow(
    name: string,
    email: string,
    password: string,
    account: AccountNumber,
    avatarUrl: string,
    pin: Option<string>)

  /** An error object reported by the database (its message is only logged or rethrown). */
  datatype StoreError = StoreError(message: string)

  /**
   * The salted hashing service. Both operations are uninterpreted: the model
   * relies only on hashing producing some string and verification producing
   * a boolean.
   */
  datatype Crypto = Crypto(
    hashPassword: string -> string,
    verifyPassword: (string, string) -> bool)

  /** The `users` table and the `saldo` (balance) table, the latter with a nullable `saldo` column. */
  class Database {
    var users: map<UserId, UserRow>
    var saldo: map<AccountNumber, Option<int>>

    constructor (users0: map<UserId, UserRow>, saldo0: map<AccountNumber, Option<int>>)
      ensures users == users0 && saldo == saldo0
    {
      users := users0;
      saldo := saldo0;
    }
  }

  /** The ids of the rows whose `email` column equals `email`. */
  function WithEmail(users: map<UserId, UserRow>, email: string): set<UserId> {
    set id | id in users && users[id].email == email
  }

  /** No two rows share an email: the registration check keeps this. */
  ghost predicate EmailsUnique(users: map<UserId, UserRow>) {
    forall a, b :: a in users && b in users && users[a].email == users[b].email ==> a == b
  }

  /** A set of size one has exactly one member. */
  lemma SingletonUnique<T>(ids: set<T>, a: T, b: T)
    requires |ids| == 1 && a in ids && b in ids
    ensures a == b
  {
    if a != b {
      assert |{a, b}| == 2;
      SubsetSize({a, b}, ids);
    }
  }

  lemma SubsetSize<T>(small: set<T>, big: set<T>)
    requires small <= big
    ensures |small| <= |big|
  {
    assert big == small + (big - small);
  }

  /**
   * `select ... eq('email', email).single()`: the query answers with a row
   * only when exactly one row matches; zero or several matches come back as
   * an error with no data.
   */
  ghost function SingleByEmail(users: map<UserId, UserRow>, email: string): (r: Option<UserId>)
    ensures r.Some? <==> |WithEmail(users, email)| == 1
    ensures r.Some? ==> r.value in users && users[r.value].email == email
    ensures r.Some? ==> forall id :: id in users && users[id].email == email ==> id == r.value
  {
    var ids := WithEmail(users, email);
    if |ids| == 1 then
      var id :| id in ids;
      assert forall other :: other in users && users[other].email == email ==> other == id by {
        forall other | other in users && users[other].email == email ensures other == id {
          assert other in ids;
          SingletonUnique(ids, id, other);
        }
      }
      Some(id)
    else
      None
  }

  /** When emails are unique, `.single()` finds exactly the rows that carry the email. */
  lemma SingleWhenUnique(users: map<UserId, UserRow>, email: string)
    requires EmailsUnique(users)
    ensures SingleByEmail(users, email).Some? <==> exists id :: id in users && users[id].email == email
  {
    if id :| id in users && users[id].email == email {
      assert WithEmail(users, email) == {id};
    }
  }

  /**
   * The query method behind `SingleByEmail`: the data it returns is the one
   * matching row, and it returns none when zero or several rows match.
   */
  method SelectSingleByEmail(db: Database, email: string) returns (r: Option<UserId>)
    ensures r == SingleByEmail(db.users, email)
  {
    var ids := WithEmail(db.users, email);
    if |ids| == 1 {
      var id :| id in ids;
      r := Some(id);
    } else {
      r := None;
    }
  }
}
