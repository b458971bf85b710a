/**
 * The accept/reject decisions of the register and login routes of server/server.js over the
 * users table. Password hashing and comparison (bcrypt) and token signing (JWT) are opaque
 * oracles: `compare(password, hash)` and `sign(id, email)`.
 */
module Accounts {
  import opened Types
  import opened Seqs

  const AllFieldsRequired := "Všechna pole jsou povinná"
  const EmailTaken := "Uživatel s tímto emailem již existuje"
  const CreateFailed := "Chyba při vytváření uživatele"
  const CredentialsRequired := "Email a heslo jsou povinné"
  const InvalidCredentials := "Neplatné přihlašovací údaje"

  /** The user object a successful register or login returns (register omits `bio`). */
  datatype Profile = Profile(id: UserId, name: string, email: string, bio: Option<string>)

  /** The body of a successful register or login: the user and a fresh signed token. */
  datatype Session = Session(user: Profile, token: string)

  function ProfileOf(u: User): Profile
  {
    Profile(u.id, u.name, u.email, u.bio)
  }

  /** `SELECT ... FROM users WHERE email = ?` taking the first row, as `db.get` does. */
  function FindByEmail(users: seq<User>, email: string): Option<User>
  {
    Lookup(users, EmailOf, email)
  }

  /** The UNIQUE constraint on the email column. */
  predicate UniqueEmails(users: seq<User>)
  {
    UniqueKeys(users, EmailOf)
  }

  /**
   * The checks register makes before inserting: all three fields present (400), the lookup
   * succeeded (500), no user holds the email yet (400). None means the insert is attempted.
   */
  function RegisterCheck(users: seq<User>, name: Option<string>, email: Option<string>,
                         password: Option<string>, lookupOk: bool): (r: Option<HttpError>)
    ensures !(Truthy(name) && Truthy(email) && Truthy(password)) ==>
              r == Some(HttpError(400, AllFieldsRequired))
    ensures Truthy(name) && Truthy(email) && Truthy(password) && !lookupOk ==>
              r == Some(HttpError(500, DatabaseError))
    ensures Truthy(name) && Truthy(email) && Truthy(password) && lookupOk &&
            (exists u :: u in users && u.email == email.value) ==>
              r == Some(HttpError(400, EmailTaken))
    ensures r.None? <==> Truthy(name) && Truthy(email) && Truthy(password) && lookupOk &&
                         forall u :: u in users ==> u.email != email.value
  {
    if !(Truthy(name) && Truthy(email) && Truthy(password)) then Some(HttpError(400, AllFieldsRequired))
    else if !lookupOk then Some(HttpError(500, DatabaseError))
    else if FindByEmail(users, email.value).Some? then Some(HttpError(400, EmailTaken))
    else None
  }

  /** Once an email is registered, registering it again is refused as a duplicate. */
  lemma RegisterSameEmailTwice(users: seq<User>, u: User, name: Option<string>, password: Option<string>)
    requires Truthy(name) && Truthy(password) && u.email != ""
    ensures RegisterCheck(users + [u], name, Some(u.email), password, true) == Some(HttpError(400, EmailTaken))
  {
    assert u in users + [u];
  }

  /**
   * Login: both fields present (400), the lookup succeeded (500), a user with the email
   * exists and the password matches its hash (otherwise the same 400 either way).
   */
  function Login(users: seq<User>, email: Option<string>, password: Option<string>, lookupOk: bool,
                 compare: (string, string) -> bool, sign: (UserId, string) -> string): (r: Result<Session>)
    ensures !(Truthy(email) && Truthy(password)) ==> r == Err(HttpError(400, CredentialsRequired))
    ensures Truthy(email) && Truthy(password) && !lookupOk ==> r == Err(HttpError(500, DatabaseError))
    ensures r.Ok? ==> lookupOk && Truthy(email) && Truthy(password) &&
                      exists u :: u in users && u.email == email.value && compare(password.value, u.passwordHash) &&
                                  r.value == Session(ProfileOf(u), sign(u.id, u.email))
  {
    if !(Truthy(email) && Truthy(password)) then Err(HttpError(400, CredentialsRequired))
    else if !lookupOk then Err(HttpError(500, DatabaseError))
    else
      match FindByEmail(users, email.value)
      case None => Err(HttpError(400, InvalidCredentials))
      case Some(u) =>
        if !compare(password.value, u.passwordHash) then Err(HttpError(400, InvalidCredentials))
        else Ok(Session(ProfileOf(u), sign(u.id, u.email)))
  }

  /**
   * After a successful lookup, every failed login gets the same 400 answer, so an unknown
   * email cannot be told apart from a wrong password.
   */
  lemma LoginFailureIsUniform(users: seq<User>, email: string, password: string,
                              compare: (string, string) -> bool, sign: (UserId, string) -> string)
    requires email != "" && password != ""
    ensures Login(users, Some(email), Some(password), true, compare, sign).Err? ==>
              Login(users, Some(email), Some(password), true, compare, sign) == Err(HttpError(400, InvalidCredentials))
    ensures FindByEmail(users, email).None? ==>
              Login(users, Some(email), Some(password), true, compare, sign) == Err(HttpError(400, InvalidCredentials))
  {
  }

  /**
   * With the email column unique, a login with a user's email and a password matching its
   * hash answers for that very user.
   */
  lemma LoginFindsTheUser(users: seq<User>, u: User, password: string,
                          compare: (string, string) -> bool, sign: (UserId, string) -> string)
    requires UniqueEmails(users) && u in users && u.email != "" && password != ""
    requires compare(password, u.passwordHash)
    ensures Login(users, Some(u.email), Some(password), true, compare, sign) ==
              Ok(Session(ProfileOf(u), sign(u.id, u.email)))
  {
    LookupUnique(users, EmailOf, u);
  }

  /**
   * Round trip: a user appended after a successful register check can log in with the
   * password its hash was made from, and gets its own identity back.
   */
  lemma {:induction false} LoginAfterRegister(users: seq<User>, u: User, password: string,
                                              compare: (string, string) -> bool, sign: (UserId, string) -> string)
    requires RegisterCheck(users, Some(u.name), Some(u.email), Some(password), true).None?
    requires compare(password, u.passwordHash)
    ensures Login(users + [u], Some(u.email), Some(password), true, compare, sign) ==
              Ok(Session(ProfileOf(u), sign(u.id, u.email)))
  {
    LookupAppend(users, EmailOf, u);
  }
}
