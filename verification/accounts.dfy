/**
 * The account store and the register and login handlers.
 * Each handler is a pure function from the store and one request to the new
 * store and an outcome; redirects and flashed notices are outcome tags.
 */
module Accounts {
  import opened Common
  import opened Http
  import opened Hashing

  type Email = string

  /** One row of the user table. Password and answers are kept only as digests. */
  datatype Account = Account(
    id: nat,
    name: string,
    email: Email,
    passwordHash: Digest,
    question1: string,
    answer1Hash: Digest,
    question2: string,
    answer2Hash: Digest,
    bmr: Option<real>)

  /** The user table keyed by its unique email column, plus the next row id to hand out. */
  datatype Store = Store(accounts: map<Email, Account>, nextId: nat)

  /** A handler's result: the store after the request and what the user is shown. */
  datatype Reply<O> = Reply(store: Store, outcome: O)

  const Empty := Store(map[], 1)

  /** Each account sits under its own email, and row ids are positive, distinct and already handed out. */
  ghost predicate Valid(s: Store)
  {
    && 1 <= s.nextId
    && (forall e :: e in s.accounts ==> s.accounts[e].email == e)
    && (forall e :: e in s.accounts ==> 1 <= s.accounts[e].id < s.nextId)
    && (forall e, f :: e in s.accounts && f in s.accounts && s.accounts[e].id == s.accounts[f].id ==> e == f)
  }

  /** `User.check_password`: the password is the one whose digest is stored. */
  predicate CheckPassword(a: Account, password: string): (b: bool)
    ensures b <==> a.passwordHash == Hash(password)
  {
    Verify(password, a.passwordHash)
  }

  /** The `user_loader`: finds the account whose row id is `id`, if any. */
  method LoadUser(s: Store, id: nat) returns (r: Option<Email>)
    ensures r.Some? ==> r.value in s.accounts && s.accounts[r.value].id == id
    ensures r.None? ==> forall e :: e in s.accounts ==> s.accounts[e].id != id
    // in a valid store the answer is the only account with that id
    ensures Valid(s) && r.Some? ==> forall e :: e in s.accounts && s.accounts[e].id == id ==> e == r.value
  {
    var pending := s.accounts.Keys;
    while pending != {}
      invariant pending <= s.accounts.Keys
      invariant forall e :: e in s.accounts && e !in pending ==> s.accounts[e].id != id
      decreases pending
    {
      var e :| e in pending;
      if s.accounts[e].id == id {
        return Some(e);
      }
      pending := pending - {e};
    }
    return None;
  }

  // ---------------------------------------------------------------- register

  /** The fields `register` reads, in the order it reads them. */
  const RegisterFields: seq<string> :=
    ["name", "email", "password", "confirm_password",
     "security_q1", "security_a1", "security_q2", "security_a2"]

  datatype RegisterOutcome =
    | RegisterForm                    // GET: the empty form
    | RegisterMissing(key: string)    // a field the handler reads is absent: bad request
    | PasswordsDiffer                 // redirect to the form, "Passwords do not match"
    | EmailTaken                      // redirect to the form, "Email already registered"
    | Created                         // redirect to login, "Account created successfully! Please login."

  /** The account registration makes from a complete form, given the row id it receives. */
  predicate IsRegistered(a: Account, form: Form, id: nat)
    requires HasAll(form, RegisterFields)
  {
    && a.id == id
    && a.name == form["name"]
    && a.email == form["email"]
    && Verify(form["password"], a.passwordHash)
    && a.question1 == form["security_q1"]
    && Verify(form["security_a1"], a.answer1Hash)
    && a.question2 == form["security_q2"]
    && Verify(form["security_a2"], a.answer2Hash)
    && a.bmr == None
  }

  function Register(s: Store, req: Request): (r: Reply<RegisterOutcome>)
    ensures req.verb == Get ==> r.outcome == RegisterForm
    ensures r.outcome.RegisterMissing? <==> req.verb == Post && !HasAll(req.form, RegisterFields)
    ensures r.outcome.RegisterMissing? ==> r.outcome.key in RegisterFields && r.outcome.key !in req.form
    // the password check comes first: it wins even when the email is taken
    ensures req.verb == Post && HasAll(req.form, RegisterFields) ==>
      (r.outcome == PasswordsDiffer <==> req.form["password"] != req.form["confirm_password"])
    ensures r.outcome == EmailTaken <==>
      && req.verb == Post && HasAll(req.form, RegisterFields)
      && req.form["password"] == req.form["confirm_password"]
      && req.form["email"] in s.accounts
    ensures r.outcome == Created <==>
      && req.verb == Post && HasAll(req.form, RegisterFields)
      && req.form["password"] == req.form["confirm_password"]
      && req.form["email"] !in s.accounts
    ensures r.outcome != Created ==> r.store == s
    ensures r.outcome == Created ==>
      var e := req.form["email"];
      && r.store.accounts.Keys == s.accounts.Keys + {e}
      && (forall f :: f in s.accounts ==> r.store.accounts[f] == s.accounts[f])
      && IsRegistered(r.store.accounts[e], req.form, s.nextId)
      && r.store.nextId == s.nextId + 1
  {
    if req.verb != Post then Reply(s, RegisterForm)
    else
      match ReadFields(req.form, RegisterFields)
      case Missing(k) => Reply(s, RegisterMissing(k))
      case Values(v) =>
        var name, email, password, confirm := v[0], v[1], v[2], v[3];
        var q1, a1, q2, a2 := v[4], v[5], v[6], v[7];
        if password != confirm then Reply(s, PasswordsDiffer)
        else if email in s.accounts then Reply(s, EmailTaken)
        else
          var account := Account(s.nextId, name, email, Hash(password), q1, Hash(a1), q2, Hash(a2), None);
          Reply(Store(s.accounts[email := account], s.nextId + 1), Created)
  }

  /** Registration keeps emails unique and row ids distinct. */
  lemma RegisterPreservesValid(s: Store, req: Request)
    requires Valid(s)
    ensures Valid(Register(s, req).store)
  {
  }

  /** Registering an email that is already present never touches the first account. */
  lemma SecondRegistrationRejected(s: Store, first: Request, second: Request)
    requires first.verb == Post && HasAll(first.form, RegisterFields)
    requires Register(s, first).outcome == Created
    requires second.verb == Post && HasAll(second.form, RegisterFields)
    requires second.form["email"] == first.form["email"]
    requires second.form["password"] == second.form["confirm_password"]
    ensures
      var s1 := Register(s, first).store;
      && Register(s1, second).outcome == EmailTaken
      && Register(s1, second).store.accounts[first.form["email"]] == s1.accounts[first.form["email"]]
  {
  }

  // ---------------------------------------------------------------- login

  /** The fields `login` reads, in order. */
  const LoginFields: seq<string> := ["email", "password"]

  datatype LoginOutcome =
    | LoginForm                     // GET: the empty form
    | LoginMissing(key: string)     // a field the handler reads is absent: bad request
    | SignedIn(id: nat)             // session opened for row `id`, redirect to the index
    | Rejected                      // redirect to login, "Invalid email or password"

  function Login(s: Store, req: Request): (r: Reply<LoginOutcome>)
    ensures r.store == s
    ensures req.verb == Get ==> r.outcome == LoginForm
    ensures r.outcome.LoginMissing? <==> req.verb == Post && !HasAll(req.form, LoginFields)
    ensures r.outcome.LoginMissing? ==> r.outcome.key in LoginFields && r.outcome.key !in req.form
    ensures r.outcome.SignedIn? <==>
      && req.verb == Post && HasAll(req.form, LoginFields)
      && req.form["email"] in s.accounts
      && CheckPassword(s.accounts[req.form["email"]], req.form["password"])
    ensures r.outcome.SignedIn? ==> r.outcome.id == s.accounts[req.form["email"]].id
    // an unknown email and a wrong password are indistinguishable
    ensures req.verb == Post && HasAll(req.form, LoginFields) && !r.outcome.SignedIn? ==> r.outcome == Rejected
  {
    if req.verb != Post then Reply(s, LoginForm)
    else
      match ReadFields(req.form, LoginFields)
      case Missing(k) => Reply(s, LoginMissing(k))
      case Values(v) =>
        var email, password := v[0], v[1];
        if email in s.accounts && CheckPassword(s.accounts[email], password) then
          Reply(s, SignedIn(s.accounts[email].id))
        else
          Reply(s, Rejected)
  }

  /** A login form with the given credentials. */
  function LoginRequest(email: Email, password: string): Request
  {
    Request(Post, map["email" := email, "password" := password])
  }

  /** After a successful registration, its password signs in and every other password is rejected. */
  lemma RegisterThenLogin(s: Store, req: Request, other: string)
    requires req.verb == Post && HasAll(req.form, RegisterFields)
    requires Register(s, req).outcome == Created
    requires other != req.form["password"]
    ensures
      var s1 := Register(s, req).store;
      && Login(s1, LoginRequest(req.form["email"], req.form["password"])).outcome == SignedIn(s.nextId)
      && Login(s1, LoginRequest(req.form["email"], other)).outcome == Rejected
  {
    var s1 := Register(s, req).store;
    assert HasAll(LoginRequest(req.form["email"], other).form, LoginFields);
    assert HasAll(LoginRequest(req.form["email"], req.form["password"]).form, LoginFields);
  }
}
