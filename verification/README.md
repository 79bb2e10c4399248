# BMR health app: account store, password recovery and metric calculators

A Dafny model of the core of a small personal-health web application. Users
register, sign in, recover a forgotten password by answering two security
questions, and compute health metrics: basal metabolic rate (BMR), total daily
energy expenditure (TDEE), a lifestyle risk band and a fixed diet plan.

The user table is a `map<Email, Account>` together with the next row id to hand
out (`Accounts.Store`). Each request handler is a pure function from the store
and one request to the new store and an outcome (`Accounts.Reply`). A request is
its verb (GET or POST) and a map of the form fields that are present. Redirects,
flashed notices, bad requests (a form field the handler reads is absent) and
server errors (an attribute read or assignment on `None`, the result of looking up an unknown email) are outcome tags.
Passwords and security answers are kept as opaque digests: `Hashing.Digest`
remembers its secret and `Verify(p, d)` holds exactly when `d` was made from `p`.

Modules, one per component:

- `Common`: `Option`.
- `Text`: ASCII lower-casing and "is a casing of".
- `Http`: requests, forms and reading fields in order (`ReadFields`).
- `Hashing`: digests and verification.
- `Accounts`: the account record, the store, the user loader, `register` and `login`.
- `Recovery`: the three-step forgot-password handler.
- `Formula`: the linear BMR formula and its two coefficient sets.
- `AppHealth`: the signed-in pages of `app.py`: BMR (stored on the account), risk assessment and diet plan.
- `UtilBmr`: the stand-alone `utils/bmr.py` helpers: case-insensitive BMR and the TDEE multiplier table.

What the model shows about the real behaviour of the recovery handler:

- The step is chosen only by which fields are present, and the tests are tried in order.
  A form with `email` and `new_password` but no `a1` goes to step 1, not step 3 (`Recovery.SelectBranch`, `Recovery.ResetFormWithoutAnswerRestarts`).
- Step 3 resets the password without checking any answer. One request carrying `email`, `a1`, `new_password` and `confirm_password` takes over an account (`Recovery.ResetBypassesAnswers`, `Recovery.ResetIgnoresAnswers`).
- An unknown email in step 2, or in step 3 with matching passwords, ends in a server error. It is not a message (`Recovery.UnknownEmailAtAnswers`, `Recovery.UnknownEmailAtReset`).

Facts about the code that a reader might not expect:

- Step 2 is chosen when `a1` is present and `new_password` is absent, once the step-1 test fails (app.py:114, app.py:125). `a2` is never tested, only read.
- A wrong answer in step 2 sets the message and the questions but not the step, so the page goes back to step 1 while still carrying the error and the two questions (app.py:106, app.py:132-135).
- An unknown email is reported as "Email not found." only in step 1 (app.py:122). In step 2 the handler reads `user.security_q1` on `None` (app.py:134). In step 3 it assigns `user.password_hash` on `None` (app.py:147). Both end in a server error.
- For 25 years, male, 180 cm and 75 kg the formula gives 1815.032 before rounding (`UtilBmr.BmrExample`).
- The docstring at utils/bmr.py:5 names the Mifflin-St Jeor equation. The coefficients at utils/bmr.py:17-19 and app.py:164-166 (88.362, 13.397, 4.799, 5.677 and 447.593, 9.247, 3.098, 4.330) are those of the revised Harris-Benedict equation.

## Model

| member | source | states |
|---|---|---|
| Hashing.Hash | app.py:65-69 | a fresh digest verifies against the secret it was made from and against no other |
| Text.Lower | utils/bmr.py:16 | lower-casing keeps the length and lower-cases each character in place |
| Text.LowerEqualsIffCasing | utils/bmr.py:42 | `s.lower() == t` holds exactly when `s` spells `t` up to letter case |
| Http.ReadFields | app.py:45-52 | reading form fields in order yields all their values exactly when all are present, and otherwise names the first absent one |
| Accounts.CheckPassword | app.py:29-30 | a password checks out exactly when the stored digest is the digest of that password |
| Accounts.LoadUser | app.py:32-34 | the user loader finds an account with the given row id, or reports that no account has it; in a valid store the account it finds is the only one with that id |
| Accounts.Register | app.py:43-76 | the password check comes before the duplicate check; either failure leaves the store unchanged; success adds exactly the new email, keeps every other account, stores password and answers as digests that verify and questions in plaintext, with no BMR |
| Accounts.RegisterPreservesValid | app.py:58-72 | registration keeps emails unique and row ids distinct |
| Accounts.SecondRegistrationRejected | app.py:58-60 | registering an existing email again is refused and the first account is untouched |
| Accounts.Login | app.py:80-93 | sign-in succeeds exactly when the email has an account and the password verifies; an unknown email and a wrong password give the same outcome; the store never changes |
| Accounts.RegisterThenLogin | app.py:85-91 | after registration the chosen password signs in to the new row and any other password is rejected |
| Recovery.SelectBranch | app.py:112-138 | which field combinations select step 1, 2, 3 or no step, with the precedence of the three presence tests worked out |
| Recovery.EmailStep | app.py:114-122 | step 1 shows the account's two questions at step 2 when the email exists, and otherwise stays at step 1 with "Email not found." |
| Recovery.AnswersStep | app.py:125-135 | step 2 advances exactly when both answers verify; answers that do not both verify send the page back to step 1 with the error and the questions; an unknown email is a server error |
| Recovery.ResetStep | app.py:138-150 | step 3 with differing passwords stays at step 3; with equal passwords it replaces only the named account's password digest and returns to step 1; an unknown email is a server error with nothing written |
| Recovery.ForgetPassword | app.py:105-159 | a GET or a POST matching no test shows step 1 with no message; only step 3 writes; no account is created or removed; the page only ever reveals the named account's plaintext questions; a server error needs an unknown email |
| Recovery.ForgetPasswordPreservesValid | app.py:146-148 | a password reset keeps the store valid |
| Recovery.ResetIgnoresAnswers | app.py:138-150 | in step 3 the values of `a1` and `a2` make no difference to the reply |
| Recovery.ResetBypassesAnswers | app.py:138-150 | one request naming a known email sets a new password without any right answer, and that password then signs in |
| Recovery.ResetFormWithoutAnswerRestarts | app.py:114-120 | a new-password form without `a1` is taken as step 1 and writes nothing |
| Recovery.UnknownEmailAtAnswers | app.py:129-135 | step 2 with an unknown email ends in a server error with the store unchanged |
| Recovery.UnknownEmailAtReset | app.py:146-147 | step 3 with matching passwords and an unknown email ends in a server error with the store unchanged |
| Recovery.OneWrongAnswerRestarts | app.py:130-135 | answers that do not both verify send the page back to step 1, with the error and the account's two questions, and write nothing |
| Recovery.RecoveryWalkthrough | app.py:114-150 | email, right answers, then a new password walk steps 1, 2, 3 and back to 1; the new password then signs in and the old one is rejected |
| Formula.LinearMonotone | utils/bmr.py:17-19 | with positive coefficients the BMR strictly increases with weight and height and strictly decreases with age |
| AppHealth.CalculateBmr | app.py:162-166 | only the exact string "male" uses 88.362/13.397/4.799/5.677; every other string, "Male" included, uses 447.593/9.247/3.098/4.330 |
| AppHealth.AppBmrShape | app.py:162-166 | the web handler's BMR strictly increases with weight and height and strictly decreases with age, in either branch |
| AppHealth.BmrBands | app.py:186-191 | the message bands split at 1400 and 1800, cover every value exactly once and never decrease as the value grows |
| AppHealth.Bmr | app.py:170-193 | an anonymous request redirects to login; a POST stores the rounded BMR on the signed-in account, changes nothing else, and shows the message of the stored value's band |
| AppHealth.BmrPreservesValid | app.py:183-184 | storing a BMR keeps the store valid |
| AppHealth.RiskBands | app.py:211-219 | a score up to 5 is low, 6 to 12 moderate, above 12 high; exactly one band each; a larger score never gets a lower band |
| AppHealth.RiskBoundaries | app.py:211-219 | scores 5, 6, 12 and 13 get Low, Moderate, Moderate and High Risk |
| AppHealth.HealthAssessment | app.py:198-225 | an anonymous request redirects to login; a POST shows "Low Risk", "Moderate Risk" or "High Risk" as the sum of the five sub-scores is at most 5, 6 to 12, or above 12, with that band's advice |
| AppHealth.DietPlan | app.py:230-252 | an anonymous request redirects to login; a POST shows the fixed plan and the rounded BMR times 1.5 |
| AppHealth.PlanIgnoresBmr | app.py:238-244 | the plan is the same five items whatever BMR is submitted |
| UtilBmr.CoefficientsFor | utils/bmr.py:16-19 | the male coefficients are chosen exactly for casings of "male", and the other set otherwise |
| UtilBmr.CalculateBmr | utils/bmr.py:3-20 | any casing of "male" uses 88.362/13.397/4.799/5.677 and every other string 447.593/9.247/3.098/4.330 |
| UtilBmr.UtilBmrShape | utils/bmr.py:16-19 | the helper's BMR strictly increases with weight and height and strictly decreases with age, in either branch |
| UtilBmr.GenderCaseInsensitive | utils/bmr.py:16 | two gender strings that lower-case alike give the same BMR |
| UtilBmr.BmrExample | utils/bmr.py:17 | 25 years, male, 180 cm, 75 kg gives 1815.032 before rounding |
| UtilBmr.AppAndUtilAgreement | app.py:163 | the web handler's case-sensitive formula agrees with the helper except on casings like "Male" |
| UtilBmr.LookupActivity | utils/bmr.py:34-42 | a level string names an activity exactly when it is a casing of that activity's key |
| UtilBmr.Multiplier | utils/bmr.py:23-42 | an omitted level means moderate, any casing of a key gets its rate, an unknown level gets 1.55, and every multiplier exceeds 1 |
| UtilBmr.CalculateTdee | utils/bmr.py:42-43 | the TDEE of a non-negative BMR is at least that BMR, and above it when the BMR is positive |
| UtilBmr.MultiplierTable | utils/bmr.py:34-40 | sedentary, light, moderate, active and very_active map to 1.2, 1.375, 1.55, 1.725 and 1.9, in any casing |
| UtilBmr.TdeeExample | utils/bmr.py:43 | a BMR of 1755.67 at the sedentary level gives 2106.804 before rounding |
| UtilBmr.RatesIncrease | utils/bmr.py:35-39 | the multipliers strictly increase from sedentary to very active |
| UtilBmr.DefaultIsModerate | utils/bmr.py:42 | an omitted level and an unknown level both give the moderate TDEE |
| UtilBmr.TdeeMonotoneInActivity | utils/bmr.py:42-43 | for a non-negative BMR a more active level never gives a smaller TDEE |
| UtilBmr.DietBelowDefaultTdee | app.py:237 | for every positive BMR the diet page's calorie figure before rounding (times 1.5) is below the helper's default TDEE (times 1.55) |

## Left out

- Web framework plumbing (routing, templates, flashed messages, redirects): handlers return outcome tags instead.
- Sessions: signing in is the `SignedIn(id)` outcome, and the signed-in user is an input to the protected pages. The logout handler, which only clears the session, is not modelled.
- The landing, terms and privacy pages: they render static templates.
- Parsing of the metric forms: the BMR, assessment and diet handlers take already-converted numbers. The bad-request and conversion errors of `int(...)` and `float(...)` are not modelled.
- Repeated form fields: a form holds one value per field, the one the handler reads.
- Floating point: numbers are exact reals.
- AppHealth.Bmr: rounding to two places is the function parameter `round2`, because Python's float rounding is not modelled.
- AppHealth.DietPlan: rounding the calorie figure is the function parameter `roundInt`, for the same reason.
- UtilBmr.CalculateTdee: returns the value before the final rounding to two places, for the same reason.
- UtilBmr.CalculateBmr: returns the value before the final rounding to two places, for the same reason.
- UtilBmr.UtilBmrShape: states the BMR before the final rounding to two places, for the same reason.
- Text.Lower: lower-cases only the ASCII letters. Python's `str.lower` also maps other letters, but none of the compared keys ("male" and the five activity keys) contains a letter that a non-ASCII character lower-cases to.
- Hashing.Hash: salting and key derivation are abstracted away, so hashing one secret twice gives equal digests here.
- Column length limits on the user table: SQLite does not enforce them.
- Concurrency: registration checks for the email and then inserts without a lock, and two resets can race. Each request is modelled as running alone.
- The database creation script, the configuration file, the browser script and the unused history tables.
