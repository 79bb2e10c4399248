/**
 * The forgot-password flow. There is no session: each POST picks its step only
 * from which form fields are present, and the email travels in the form.
 */
module Recovery {
  import opened Common
  import opened Http
  import opened Hashing
  import opened Accounts

  /** The step the page shows: the template's step 1, 2 and 3. */
  datatype Step = AwaitingEmail | AwaitingAnswers | AwaitingNewPassword

  /** What the page is rendered with. */
  datatype Page = Page(
    step: Step,
    message: Option<string>,
    email: Option<Email>,
    question1: Option<string>,
    question2: Option<string>)

  datatype RecoveryOutcome =
    | Render(page: Page)
    | RecoveryMissing(key: string)  // a field the step reads is absent: bad request
    | NoneAttribute                 // an attribute read or assignment on None: server error, nothing committed

  /** Which branch of the handler a request enters. */
  datatype Branch = NoBranch | EmailBranch | AnswersBranch | ResetBranch

  const EmailNotFound := "Email not found."
  const AnswersWrong := "Answers do not match. Try again."
  const PasswordsDiffer := "Passwords do not match."
  const ResetDone := "Password reset successfully. You can now login."

  /** The page a GET, or a POST that enters no branch, renders. */
  const FirstPage := Page(AwaitingEmail, None, None, None, None)

  const AnswersFields: seq<string> := ["email", "a1", "a2"]
  const ResetFields: seq<string> := ["email", "new_password", "confirm_password"]

  /**
   * The three field-presence tests, tried in order. Once their precedence is
   * worked out, a form carrying `email` and `new_password` but no `a1` is taken
   * to step 1; the reset needs `a1` to be present, or `email` absent.
   */
  function SelectBranch(req: Request): (b: Branch)
    ensures b == EmailBranch <==>
      req.verb == Post && "email" in req.form && "a1" !in req.form
    ensures b == AnswersBranch <==>
      req.verb == Post && "a1" in req.form && "new_password" !in req.form
    ensures b == ResetBranch <==>
      req.verb == Post && "new_password" in req.form && ("a1" in req.form || "email" !in req.form)
    ensures b == NoBranch <==>
      req.verb == Get || ("email" !in req.form && "a1" !in req.form && "new_password" !in req.form)
  {
    match req.verb
    case Get => NoBranch
    case Post =>
      if "email" in req.form && "a1" !in req.form then EmailBranch
      else if "a1" in req.form && "new_password" !in req.form then AnswersBranch
      else if "new_password" in req.form then ResetBranch
      else NoBranch
  }

  /** Step 1: look the email up and, if it is known, show its two questions. */
  function EmailStep(s: Store, form: Form): (r: RecoveryOutcome)
    ensures "email" !in form ==> r == RecoveryMissing("email")
    ensures "email" in form && form["email"] in s.accounts ==>
      var a := s.accounts[form["email"]];
      r == Render(Page(AwaitingAnswers, None, Some(form["email"]), Some(a.question1), Some(a.question2)))
    ensures "email" in form && form["email"] !in s.accounts ==>
      r == Render(Page(AwaitingEmail, Some(EmailNotFound), Some(form["email"]), None, None))
  {
    match ReadFields(form, ["email"])
    case Missing(k) => RecoveryMissing(k)
    case Values(v) =>
      var email := v[0];
      if email in s.accounts then
        var a := s.accounts[email];
        Render(Page(AwaitingAnswers, None, Some(email), Some(a.question1), Some(a.question2)))
      else
        Render(Page(AwaitingEmail, Some(EmailNotFound), Some(email), None, None))
  }

  /** Both security answers verify against the account's digests. */
  predicate AnswersVerify(a: Account, answer1: string, answer2: string)
  {
    Verify(answer1, a.answer1Hash) && Verify(answer2, a.answer2Hash)
  }

  /**
   * Step 2: check both answers. The wrong-answer branch sets the message and
   * re-reads the questions from the user it looked up, which fails when there
   * is none; it does not set the step, so the page falls back to step 1.
   */
  function AnswersStep(s: Store, form: Form): (r: RecoveryOutcome)
    ensures r.RecoveryMissing? <==> !HasAll(form, AnswersFields)
    ensures r.RecoveryMissing? ==> r.key in AnswersFields && r.key !in form
    // advancing needs both answers at once
    ensures r.Render? && r.page.step == AwaitingNewPassword <==>
      && HasAll(form, AnswersFields) && form["email"] in s.accounts
      && AnswersVerify(s.accounts[form["email"]], form["a1"], form["a2"])
    ensures r.Render? && r.page.step == AwaitingNewPassword ==>
      r.page == Page(AwaitingNewPassword, None, Some(form["email"]), None, None)
    ensures (HasAll(form, AnswersFields) && form["email"] in s.accounts
      && !AnswersVerify(s.accounts[form["email"]], form["a1"], form["a2"])) ==>
      var a := s.accounts[form["email"]];
      r == Render(Page(AwaitingEmail, Some(AnswersWrong), Some(form["email"]), Some(a.question1), Some(a.question2)))
    ensures r == NoneAttribute <==> HasAll(form, AnswersFields) && form["email"] !in s.accounts
  {
    match ReadFields(form, AnswersFields)
    case Missing(k) => RecoveryMissing(k)
    case Values(v) =>
      var email, answer1, answer2 := v[0], v[1], v[2];
      if email in s.accounts && AnswersVerify(s.accounts[email], answer1, answer2) then
        Render(Page(AwaitingNewPassword, None, Some(email), None, None))
      else if email !in s.accounts then
        NoneAttribute
      else
        var a := s.accounts[email];
        Render(Page(AwaitingEmail, Some(AnswersWrong), Some(email), Some(a.question1), Some(a.question2)))
  }

  /** `after` is `before` with only its password digest replaced. */
  predicate SameExceptPassword(before: Account, after: Account)
  {
    after == before.(passwordHash := after.passwordHash)
  }

  /**
   * Step 3: reset the password of the account the form names. No answer is
   * checked here. A missing account is only dereferenced once the two
   * passwords agree.
   */
  function ResetStep(s: Store, form: Form): (r: Reply<RecoveryOutcome>)
    ensures r.outcome.RecoveryMissing? <==> !HasAll(form, ResetFields)
    ensures r.outcome.RecoveryMissing? ==> r.outcome.key in ResetFields && r.outcome.key !in form
    ensures HasAll(form, ResetFields) && form["new_password"] != form["confirm_password"] ==>
      r.outcome == Render(Page(AwaitingNewPassword, Some(PasswordsDiffer), Some(form["email"]), None, None))
    ensures r.outcome == NoneAttribute <==>
      && HasAll(form, ResetFields) && form["new_password"] == form["confirm_password"]
      && form["email"] !in s.accounts
    // the store changes only on success, and then only the named account's password
    ensures !(r.outcome.Render? && r.outcome.page.message == Some(ResetDone)) ==> r.store == s
    ensures r.outcome.Render? && r.outcome.page.message == Some(ResetDone) <==>
      && HasAll(form, ResetFields) && form["new_password"] == form["confirm_password"]
      && form["email"] in s.accounts
    ensures r.outcome.Render? && r.outcome.page.message == Some(ResetDone) ==>
      var e := form["email"];
      && r.outcome.page == Page(AwaitingEmail, Some(ResetDone), Some(e), None, None)
      && r.store.nextId == s.nextId
      && r.store.accounts.Keys == s.accounts.Keys
      && (forall f :: f in s.accounts && f != e ==> r.store.accounts[f] == s.accounts[f])
      && SameExceptPassword(s.accounts[e], r.store.accounts[e])
      && CheckPassword(r.store.accounts[e], form["new_password"])
  {
    match ReadFields(form, ResetFields)
    case Missing(k) => Reply(s, RecoveryMissing(k))
    case Values(v) =>
      var email, newPassword, confirm := v[0], v[1], v[2];
      if newPassword != confirm then
        Reply(s, Render(Page(AwaitingNewPassword, Some(PasswordsDiffer), Some(email), None, None)))
      else if email !in s.accounts then
        Reply(s, NoneAttribute)
      else
        var a := s.accounts[email].(passwordHash := Hash(newPassword));
        Reply(s.(accounts := s.accounts[email := a]),
              Render(Page(AwaitingEmail, Some(ResetDone), Some(email), None, None)))
  }

  /** The page names a known account and shows exactly that account's plaintext questions, if any. */
  predicate ShowsOwnQuestions(s: Store, p: Page)
  {
    p.question1.Some? || p.question2.Some? ==>
      && p.email.Some? && p.email.value in s.accounts
      && p.question1 == Some(s.accounts[p.email.value].question1)
      && p.question2 == Some(s.accounts[p.email.value].question2)
  }

  /** The `forget_password` handler. */
  function ForgetPassword(s: Store, req: Request): (r: Reply<RecoveryOutcome>)
    ensures SelectBranch(req) == NoBranch ==> r == Reply(s, Render(FirstPage))
    // only the reset branch ever writes
    ensures SelectBranch(req) != ResetBranch ==> r.store == s
    ensures r.store.accounts.Keys == s.accounts.Keys && r.store.nextId == s.nextId
    // the only thing sent back about an account is its two plaintext questions
    ensures r.outcome.Render? ==> ShowsOwnQuestions(s, r.outcome.page)
    // a server error happens only for an email that has no account
    ensures r.outcome == NoneAttribute ==> "email" in req.form && req.form["email"] !in s.accounts
  {
    match SelectBranch(req)
    case NoBranch => Reply(s, Render(FirstPage))
    case EmailBranch => Reply(s, EmailStep(s, req.form))
    case AnswersBranch => Reply(s, AnswersStep(s, req.form))
    case ResetBranch => ResetStep(s, req.form)
  }

  /** A recovery request can only replace one password digest, so the store stays valid. */
  lemma ForgetPasswordPreservesValid(s: Store, req: Request)
    requires Valid(s)
    ensures Valid(ForgetPassword(s, req).store)
  {
    var r := ForgetPassword(s, req);
    if r.store != s {
      var e := req.form["email"];
      forall f | f in r.store.accounts
        ensures r.store.accounts[f].email == f && r.store.accounts[f].id == s.accounts[f].id
      {
        if f == e {
          assert SameExceptPassword(s.accounts[e], r.store.accounts[e]);
        }
      }
    }
  }

  /**
   * Step 3 never looks at the answers: once `new_password` and `a1` are both
   * present, whatever values `a1` and `a2` carry, the reply is the same.
   */
  lemma ResetIgnoresAnswers(s: Store, form: Form, x1: string, x2: string, y1: string, y2: string)
    requires "new_password" in form && "a1" in form
    ensures ForgetPassword(s, Request(Post, form["a1" := x1]["a2" := x2]))
         == ForgetPassword(s, Request(Post, form["a1" := y1]["a2" := y2]))
  {
    var fx, fy := form["a1" := x1]["a2" := x2], form["a1" := y1]["a2" := y2];
    assert SelectBranch(Request(Post, fx)) == ResetBranch == SelectBranch(Request(Post, fy));
    assert forall k :: k in ResetFields ==> (k in fx <==> k in fy) && (k in fx ==> fx[k] == fy[k]);
    assert ReadFields(fx, ResetFields) == ReadFields(fy, ResetFields);
  }

  /** The recovery request that sets `password` on `email` without any answer being right. */
  function BareResetRequest(email: Email, password: string): Request
  {
    Request(Post, map["email" := email, "a1" := "", "new_password" := password, "confirm_password" := password])
  }

  /**
   * Anyone who knows an account's email can set its password with one request,
   * and then sign in with it: the answers are never checked on the way.
   */
  lemma ResetBypassesAnswers(s: Store, email: Email, password: string)
    requires email in s.accounts
    ensures
      var r := ForgetPassword(s, BareResetRequest(email, password));
      && r.outcome == Render(Page(AwaitingEmail, Some(ResetDone), Some(email), None, None))
      && Login(r.store, LoginRequest(email, password)).outcome == SignedIn(s.accounts[email].id)
  {
    var req := BareResetRequest(email, password);
    assert SelectBranch(req) == ResetBranch;
    assert HasAll(req.form, ResetFields);
    var r := ForgetPassword(s, req);
    assert HasAll(LoginRequest(email, password).form, LoginFields);
    assert SameExceptPassword(s.accounts[email], r.store.accounts[email]);
  }

  /**
   * A new-password form that does not resubmit `a1` is taken to step 1: the
   * store is untouched and the page asks for the answers again.
   */
  lemma ResetFormWithoutAnswerRestarts(s: Store, email: Email, password: string)
    requires email in s.accounts
    ensures
      var req := Request(Post, map["email" := email, "new_password" := password, "confirm_password" := password]);
      var a := s.accounts[email];
      ForgetPassword(s, req)
        == Reply(s, Render(Page(AwaitingAnswers, None, Some(email), Some(a.question1), Some(a.question2))))
  {
    var req := Request(Post, map["email" := email, "new_password" := password, "confirm_password" := password]);
    assert SelectBranch(req) == EmailBranch;
  }

  /** Step 2 with an email that has no account fails with a server error instead of a message. */
  lemma UnknownEmailAtAnswers(s: Store, email: Email, answer1: string, answer2: string)
    requires email !in s.accounts
    ensures ForgetPassword(s, Request(Post, map["email" := email, "a1" := answer1, "a2" := answer2]))
         == Reply(s, NoneAttribute)
  {
    var req := Request(Post, map["email" := email, "a1" := answer1, "a2" := answer2]);
    assert SelectBranch(req) == AnswersBranch;
    assert HasAll(req.form, AnswersFields);
  }

  /** Step 3 with matching passwords and an email that has no account fails with a server error, writing nothing. */
  lemma UnknownEmailAtReset(s: Store, email: Email, password: string)
    requires email !in s.accounts
    ensures ForgetPassword(s, BareResetRequest(email, password)) == Reply(s, NoneAttribute)
  {
    var req := BareResetRequest(email, password);
    assert SelectBranch(req) == ResetBranch;
    assert HasAll(req.form, ResetFields);
  }

  /**
   * One right answer and one wrong answer is not enough: the page goes back
   * to step 1, still carrying the error and the questions, and nothing is written.
   */
  lemma OneWrongAnswerRestarts(s: Store, email: Email, answer1: string, answer2: string)
    requires email in s.accounts
    requires !AnswersVerify(s.accounts[email], answer1, answer2)
    ensures
      var r := ForgetPassword(s, Request(Post, map["email" := email, "a1" := answer1, "a2" := answer2]));
      && r.store == s
      && r.outcome.Render? && r.outcome.page.step == AwaitingEmail
      && r.outcome.page.message == Some(AnswersWrong)
      && r.outcome.page.question1 == Some(s.accounts[email].question1)
      && r.outcome.page.question2 == Some(s.accounts[email].question2)
  {
    var req := Request(Post, map["email" := email, "a1" := answer1, "a2" := answer2]);
    assert SelectBranch(req) == AnswersBranch;
    assert HasAll(req.form, AnswersFields);
  }

  /**
   * The flow end to end: email, then the right answers, then a new password
   * walk the page through steps 1, 2, 3 and back to 1; afterwards the new
   * password signs in and the old one no longer does.
   */
  lemma RecoveryWalkthrough(s: Store, email: Email, answer1: string, answer2: string,
                            oldPassword: string, newPassword: string)
    requires email in s.accounts
    requires AnswersVerify(s.accounts[email], answer1, answer2)
    requires CheckPassword(s.accounts[email], oldPassword)
    requires oldPassword != newPassword
    ensures
      var r1 := ForgetPassword(s, Request(Post, map["email" := email]));
      var r2 := ForgetPassword(r1.store, Request(Post, map["email" := email, "a1" := answer1, "a2" := answer2]));
      var r3 := ForgetPassword(r2.store, Request(Post, map["email" := email, "a1" := answer1,
                                                           "new_password" := newPassword,
                                                           "confirm_password" := newPassword]));
      && r1.outcome.Render? && r1.outcome.page.step == AwaitingAnswers
      && r2.outcome.Render? && r2.outcome.page.step == AwaitingNewPassword
      && r3.outcome.Render? && r3.outcome.page.step == AwaitingEmail
      && r3.outcome.page.message == Some(ResetDone)
      && Login(r3.store, LoginRequest(email, newPassword)).outcome == SignedIn(s.accounts[email].id)
      && Login(r3.store, LoginRequest(email, oldPassword)).outcome == Rejected
  {
    var q1 := Request(Post, map["email" := email]);
    var q2 := Request(Post, map["email" := email, "a1" := answer1, "a2" := answer2]);
    var q3 := Request(Post, map["email" := email, "a1" := answer1,
                                "new_password" := newPassword, "confirm_password" := newPassword]);
    assert SelectBranch(q1) == EmailBranch;
    assert SelectBranch(q2) == AnswersBranch;
    assert HasAll(q2.form, AnswersFields);
    assert SelectBranch(q3) == ResetBranch;
    assert HasAll(q3.form, ResetFields);
    var r3 := ForgetPassword(s, q3);
    assert SameExceptPassword(s.accounts[email], r3.store.accounts[email]);
    assert HasAll(LoginRequest(email, newPassword).form, LoginFields);
    assert HasAll(LoginRequest(email, oldPassword).form, LoginFields);
  }
}
