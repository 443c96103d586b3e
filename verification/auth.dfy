/**
 * The console's credential gate (web_admin.py): a static table of two
 * accounts, the flask_login user loader and the login form check. The
 * werkzeug hashing functions are parameters: `hash` stands for
 * `generate_password_hash` (salted, so any function will do) and `check` for
 * `check_password_hash`, which receives the form's password as sent, absent
 * included.
 */
module Auth {
  import opened Wrappers

  /** A logged-in console identity. */
  datatype User = User(id: string)

  /** The module-level `users` table: account name to stored password hash. */
  function Accounts(hash: string -> string): (t: map<string, string>)
    ensures forall name :: name in t <==> name == "admin" || name == "support"
    ensures "admin" in t && t["admin"] == hash("admin123")
    ensures "support" in t && t["support"] == hash("support123")
  {
    map["admin" := hash("admin123"), "support" := hash("support123")]
  }

  /** `load_user`: a user exactly for the ids of the account table. */
  function LoadUser(accounts: map<string, string>, id: string): (u: Option<User>)
    ensures u.Some? <==> id in accounts
    ensures u.Some? ==> u.value.id == id
  {
    if id in accounts then Some(User(id)) else None
  }

  /** The error shown on the login page after a failed attempt ("wrong user name or password"). */
  const BadCredentials: string := "用户名或密码错误"

  /** The outcome of a POST to `/login`. */
  datatype LoginResult = LoggedIn(user: User) | Rejected(message: string)

  /**
   * The POST branch of `login`: success only when the user name is an account
   * and its stored hash accepts the password; otherwise the login page again.
   */
  function Login(accounts: map<string, string>, check: (string, Option<string>) -> bool,
                 username: Option<string>, password: Option<string>): (r: LoginResult)
    ensures r.LoggedIn? <==>
      username.Some? && username.value in accounts && check(accounts[username.value], password)
    ensures r.LoggedIn? ==> r.user.id == username.value && LoadUser(accounts, r.user.id) == Some(r.user)
    ensures r.Rejected? ==> r.message == BadCredentials
  {
    match username
    case Some(name) =>
      if name in accounts && check(accounts[name], password) then LoggedIn(User(name))
      else Rejected(BadCredentials)
    case None => Rejected(BadCredentials)
  }

  /**
   * With a hash that checks exactly the password it was made from, the only
   * accepted logins are admin/admin123 and support/support123.
   */
  lemma LoginWithFaithfulHash(hash: string -> string, check: (string, Option<string>) -> bool,
                              username: Option<string>, password: Option<string>)
    requires forall p: string, q: Option<string> :: check(hash(p), q) <==> q == Some(p)
    ensures Login(Accounts(hash), check, username, password).LoggedIn? <==>
      (username == Some("admin") && password == Some("admin123")) ||
      (username == Some("support") && password == Some("support123"))
  {
  }
}
