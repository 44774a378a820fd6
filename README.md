# Account and authentication core of the Express API template

This project models, in Dafny, the account and authentication logic of the
Express API template: signup, email verification, login, logout, the
password-reset flow, and the profile handlers. These handlers work over one
user table. The model also covers the gates that run before them (token
authentication, signup and login validation), the helpers they share, and the
request schemas.

Layout, one module per concern of the program:

- `Common`: `Option`, `Result`, and JavaScript truthiness of strings (`Truthy`, the `||` operator `Or`, template rendering of `undefined`).
- `Models`: the `User` row of the user table, its public projection `UserData`, and the faults the persistence layer raises.
- `Oracles`: JSON Web Token signing and verification and bcrypt hashing and comparison. They are function-valued fields of a `Crypto` record, so every proof holds for every choice of them.
- `Mailer`: the mail that `sendMail` composes from its options, and its answer, which is `true` or the error's message.
- `Http`: response bodies, the `token` cookie operation, and the `Reply` of one handler invocation.
- `Helpers`: `src/utils/helpers.js`.
- `Joi`: the behaviour of the schema library that the validators rely on. Keys are checked in schema order and the first error is reported. Unknown keys are rejected after the schema keys. An error is read as its label.
- `AuthValidation`, `UserValidation`, `PasswordValidation`: the three files of `src/validation`.
- `UserStore`: the user table behind `UserService`, as pure functions over `map<int, User>` and an auto-increment counter. Its invariant `Consistent` says that keys are the rows' ids and that no two rows share an email.
- `AuthMiddleware`: the three gates. Each is a function answering `Stop(response)` or `Pass(data)`.
- `Controllers`: class `Accounts`, which owns the table (`users`, `nextId`) and has one method per handler of both controllers. Every method that writes keeps `Valid()`. Every method also keeps `VerifiedKept`: a row that was verified stays verified.

In four places the API's documented behaviour differs from what the code does. The model follows the code:

- **Failed reset mail.** The documented behaviour is that a failed delivery of the reset mail is an error (5xx). In the code, `sendMail` returns the caught error's message. A non-empty message is truthy, so the handler answers 200 "Password reset link sent successfully". When the message is empty, the handler sends nothing. `Controllers.Accounts.SendResetPasswordEmail` states both cases.
- **Token order.** The documented behaviour lists the bearer header first among token sources. The code tries the cookie first, then the bearer value, `x-access-token`, the `token` header and the body `token`.
- **Password labels.** The signup password label asks for more than 8 characters. The pattern accepts any 3 to 30 ASCII letters and digits.
- **Lost verification link.** The signup handler passes `verificationLink` to `sendMail`, which reads only `urlLink`. The welcome mail therefore carries no link.

## Model

| member | source | states |
|---|---|---|
| Helpers.SuccessResponse | src/utils/helpers.js:105-110 | status is the given code or 200; body status is "success"; `data` is carried unchanged |
| Helpers.ErrorResponse | src/utils/helpers.js:123-131 | status defaults to 500 and message to "Some error occurred while processing your Request"; body status is "fail" |
| Helpers.EnvelopesDiffer | src/utils/helpers.js:105-131 | a success envelope never equals a failure envelope, whatever the codes |
| Helpers.ExtractUserData | src/utils/helpers.js:140-152 | the projection carries the id, both names, email, gender, verification flag and timestamps of the row, plus the attached token; it has no password column |
| Helpers.ExtractIgnoresPassword | src/utils/helpers.js:140-152 | the projection does not depend on the password digest |
| Helpers.ExtractKeepsOtherColumns | src/utils/helpers.js:140-152 | two rows with the same projection differ at most in their password |
| Helpers.Split | src/utils/helpers.js:177 | `split(' ')` gives at least one part and no part holds the separator |
| Helpers.JoinSplit | src/utils/helpers.js:177 | joining the parts of a split gives back the header |
| Helpers.SplitNoSeparator | src/utils/helpers.js:177 | a string without the separator splits into itself alone |
| Helpers.SplitAtSeparator | src/utils/helpers.js:177 | a separator-free prefix followed by the separator is split off as the first part |
| Helpers.SplitJoin | src/utils/helpers.js:177 | splitting a join of separator-free parts gives back the parts |
| Helpers.Bearer | src/utils/helpers.js:175-178 | the bearer value is the second space-separated part when it is non-empty, else the whole header |
| Helpers.BearerOfScheme | src/utils/helpers.js:175-178 | `"<scheme> <t>"` yields `t` |
| Helpers.BearerIgnoresLaterParts | src/utils/helpers.js:175-178 | parts after the second are ignored: `"a b c"` yields `"b"` |
| Helpers.BearerDoubleSpace | src/utils/helpers.js:175-178 | two spaces after the scheme leave an empty second part, so the whole header is taken |
| Helpers.BearerWithoutSpace | src/utils/helpers.js:175-178 | a header without a space is taken whole |
| Helpers.BearerToken | src/utils/helpers.js:175-179 | no candidate when the `authorization` header is missing or empty; otherwise the header's bearer value, which is non-empty |
| Helpers.GetToken | src/utils/helpers.js:170-181 | a token is found iff some source is truthy; a truthy cookie wins; otherwise a truthy `authorization` header gives its bearer value; otherwise a truthy `x-access-token` |
| Helpers.FirstTruthyIsFirst | src/utils/helpers.js:180 | a `\|\|` chain is truthy iff some operand is, and then equals the first truthy operand |
| Helpers.GetTokenPrecedence | src/utils/helpers.js:170-181 | `getToken` is the first truthy of cookie, bearer, `x-access-token`, `token` header, body `token`; it finds a token iff one of them is truthy |
| Helpers.CookieBeforeBearer | src/utils/helpers.js:180 | a truthy cookie wins over every header |
| Helpers.GenerateVerificationLink | src/utils/helpers.js:67-71 | the link starts with `<protocol>://<hostname>` and ends with `/api/auth/verify?token=` and a day-long token over the claims |
| Helpers.VerificationLinkPort | src/utils/helpers.js:67-71 | the exact link: `<protocol>://<hostname>/api/auth/verify?token=<t>` away from `localhost`, where the port never matters; `<protocol>://localhost:<PORT>/api/auth/verify?token=<t>` on `localhost` |
| Helpers.VerifyToken | src/utils/helpers.js:48-54 | every rejection, including a missing or empty token, becomes the single error "Invalid Token"; otherwise the verifier's claims |
| Helpers.UpdateCollection | src/utils/helpers.js:202-207 | length is preserved; each item gains the option keys, option values win, other values stay |
| Helpers.UpdateCollectionIdempotent | src/utils/helpers.js:202-207 | applying the same options twice equals applying them once |
| Helpers.UpdateCollectionCompose | src/utils/helpers.js:202-207 | two updates in a row equal one update with the later options on top |
| Helpers.ExtractArrayRecords | src/utils/helpers.js:190-192 | length is preserved and each record is its instance's `dataValues` |
| Mailer.Compose | src/utils/mailer.js:24-35 | the mail goes to the `email` option with its template and first name, and its link is the `urlLink` option |
| Mailer.VerificationLinkIgnored | src/utils/mailer.js:24-35 | a `verificationLink` option never reaches the mail, so a mail without `urlLink` has no link |
| Joi.ValidateAccepts | src/validation/authValidation.js:31-35 | an object is valid iff every schema key passes its rule and there is no other key |
| Joi.ValidateAll | src/validation/authValidation.js:31-35 | an object is valid iff for every schema key the rule admits the value, and there is no other key |
| Joi.ValidateReportsFirst | src/validation/authValidation.js:31-34 | the reported label is that of the first failing key in schema order, or of the first unknown key |
| Joi.ValidateLabelsNonEmpty | src/middlewares/authMiddleware.js:35-37 | when every rule has a label, every error has a non-empty label |
| AuthValidation.ValidateSignupData | src/validation/authValidation.js:17-36 | valid iff names of 3 to 25 characters, an email, a password of 3 to 30 ASCII letters or digits, an optional gender in Male/Female/male/female, and no other key; an error always has a label |
| AuthValidation.SignupReportsFirstFailure | src/validation/authValidation.js:18-34 | the error label is that of the first failing key in the order firstName, lastName, email, password, gender |
| AuthValidation.ValidateLoginData | src/validation/authValidation.js:45-58 | valid iff an email and a password of the signup pattern and no other key |
| AuthValidation.SignupCredentialsPassLogin | src/validation/authValidation.js:46-51 | credentials valid at signup are valid at login |
| AuthValidation.ShortPasswordAccepted | src/validation/authValidation.js:25-26 | "abc" passes the password pattern; "ab" and "abc!" do not |
| UserValidation.ValidateProfile | src/validation/userValidation.js:18-34 | valid iff each present key passes its rule (names 3 to 25, email, gender set) and there is no other key |
| UserValidation.EmptyProfileValid | src/validation/userValidation.js:19-28 | the empty object is a valid profile update |
| UserValidation.SignupProfileValid | src/validation/userValidation.js:19-28 | the profile keys of a valid signup form a valid profile update |
| PasswordValidation.ValidateResetEmail | src/validation/passwordValidation.js:3-7 | valid iff the email is present and well formed; the error label is "email" |
| PasswordValidation.ValidateChangePassword | src/validation/passwordValidation.js:9-14 | valid iff the password matches the pattern and `confirmPassword` is absent or equal to it |
| PasswordValidation.ConfirmationOptional | src/validation/passwordValidation.js:11-13 | a password alone passes; a different confirmation fails with label "confirmPassword" |
| PasswordValidation.NewPasswordPassesLogin | src/validation/passwordValidation.js:10 | a newly chosen password passes the login schema |
| UserStore.AtMostOneOwner | src/models/user.js:11-16 | under the unique constraint an email has at most one row |
| UserStore.FindFrom | src/middlewares/authMiddleware.js:27 | the lookup by email answers a key holding the email, or nothing when no key holds it |
| UserStore.FindByEmail | src/controllers/authController.js:94 | a found row holds the email and is a row of the table; nothing found means no key in use holds the email |
| UserStore.FindByEmailExact | src/controllers/authController.js:94 | on a valid table the lookup answers exactly the row holding the email |
| UserStore.FindByEmailNone | src/controllers/authController.js:165-166 | on a valid table the lookup finds nothing iff no row holds the email |
| UserStore.Create | src/models/user.js:2-29 | insertion succeeds iff the required columns are strings, gender is absent or a string, and the email is free; the new row is unverified, takes the next key, the password digest and the clock |
| UserStore.CreateKeepsValid | src/models/user.js:11-16 | inserting the created row keeps keys consistent and emails unique |
| UserStore.MarkVerified | src/controllers/authController.js:68 | the row named by the claims' id, now verified, or 'Not Found' when there is no such id |
| UserStore.MarkVerifiedKeepsValid | src/controllers/authController.js:68 | verifying keeps the table valid, and verifying again keeps the row verified |
| UserStore.UpdatePassword | src/controllers/authController.js:123 | exactly the rows holding the email get the new digest; the count is the number of such rows |
| UserStore.UpdatePasswordCount | src/controllers/authController.js:123-128 | on a valid table the count is 1 iff the email is held and 0 otherwise, and the table stays valid |
| UserStore.UpdateAny | src/controllers/userController.js:48 | the update succeeds iff the row exists, every value is a string, and the new email is held by no other row; a present key sets its column (gender as a value) and an absent key keeps it; id, password digest, verification and creation time are kept; the update time is the clock |
| UserStore.UpdateAnyKeepsValid | src/controllers/userController.js:48 | writing the updated row back keeps the table valid |
| UserStore.DeleteOne | src/controllers/userController.js:69-70 | the row is removed; the count is 1 iff it existed |
| UserStore.DeleteKeepsValid | src/controllers/userController.js:69 | deleting keeps the table valid |
| UserStore.WritesKeepVerified | src/models/user.js:25-29 | no write ever clears `isVerified` |
| AuthMiddleware.NumberOf | src/middlewares/authMiddleware.js:75 | `Number(userId)` is defined iff the segment is decimal digits; the empty segment is 0 |
| AuthMiddleware.NumberOfDecimal | src/middlewares/authMiddleware.js:75 | `Number` reads back the decimal rendering of every key |
| AuthMiddleware.Authenticate | src/middlewares/authMiddleware.js:67-87 | no token: 401 "Access denied, Token required"; bad token: 401 "Invalid Token"; path id differing from the token id: 401 "Access denied, check Url"; it passes iff none of these, with the decoded claims as `req.data` |
| AuthMiddleware.LeadingZeros | src/middlewares/authMiddleware.js:75 | leading zeros do not change `Number` of a digit string |
| AuthMiddleware.OwnProfileOnly | src/middlewares/authMiddleware.js:71-80 | a token for id n opens `/n` and is refused on any other digit path |
| AuthMiddleware.PaddedProfileOpens | src/middlewares/authMiddleware.js:75-80 | a token for id n also opens `/0…0n`, e.g. a token for 7 opens `/007` |
| AuthMiddleware.WrongProfileRefused | src/middlewares/authMiddleware.js:75-79 | a token minted for id 7 is refused on `/5` with "Access denied, check Url" |
| AuthMiddleware.NoUserIdNoComparison | src/middlewares/authMiddleware.js:71-83 | without a path user the claims' id is never compared |
| AuthMiddleware.SignupValidation | src/middlewares/authMiddleware.js:22-40 | a schema error is a 400 with its label; a valid body whose email is held is a 409 "User with email: <email> already exists"; it passes iff the body is valid and the email is free |
| AuthMiddleware.SignupGateAdmitsCreate | src/middlewares/authMiddleware.js:24-29 | a body that passes the signup gate is inserted by the store, unverified |
| AuthMiddleware.SecondSignupConflicts | src/middlewares/authMiddleware.js:27-31 | once a signup is stored, the same body gets 409 |
| AuthMiddleware.LoginValidation | src/middlewares/authMiddleware.js:49-58 | passes iff the login schema accepts; otherwise a 400 with a non-empty label |
| AuthMiddleware.SignupThenLoginGate | src/middlewares/authMiddleware.js:49-58 | credentials that passed the signup gate pass the login gate |
| Controllers.ResetUrl | src/controllers/authController.js:100 | the reset link starts with `<protocol>://<host>` and ends with `/api/auth/reset-password?token=<t>` |
| Controllers.ChangeUrl | src/controllers/authController.js:147 | the change address starts with `<protocol>://<host>` and ends with `/api/auth/password/reset/<email>` |
| Controllers.Accounts.CreateUser | src/controllers/authController.js:35-53 | a store failure answers 500 with the default message and changes nothing; success adds one unverified row, answers 201 with its projection, token and `emailSent`, sets the cookie (86400000 ms, httpOnly), and mails the welcome template without a link |
| Controllers.Accounts.VerifyEmail | src/controllers/authController.js:64-81 | a bad token answers 400 "Invalid token, verification unsuccessful"; an unknown id answers 400 "No user found to verify"; otherwise only that row becomes verified and its projection is answered |
| Controllers.Accounts.SendResetPasswordEmail | src/controllers/authController.js:91-109 | an unknown email answers 404 "User account does not exist"; otherwise the reset mail carries a 24h token over id and email; the answer is 200 iff the gateway's answer is truthy, and there is no answer otherwise |
| Controllers.Accounts.ResetPassword | src/controllers/authController.js:119-133 | with no token, the path email selects the rows; 200 "Password has been changed successfully" iff the email is held, else 404 and nothing changes |
| Controllers.Accounts.VerifyPasswordResetLink | src/controllers/authController.js:143-153 | a bad token answers 500 "Verification unsuccessful, Invalid Token"; a valid one answers 200 with the change address of the token's email; the table is not written |
| Controllers.Accounts.LoginUser | src/controllers/authController.js:162-180 | lookup before password check: 401 "User does not exists", then 401 "Password is not correct, try again"; 200 iff the account exists and the password matches, with a day-long token also set as cookie |
| Controllers.Accounts.Logout | src/controllers/authController.js:190-197 | clears the cookie and answers 200 with the logout notice; the table is not written |
| Controllers.Accounts.GetUser | src/controllers/userController.js:25-34 | the projection of the row with that id; a missing row answers 500 |
| Controllers.Accounts.UpdateUser | src/controllers/userController.js:45-54 | success writes the patched row and answers its projection; a store failure answers 500 and changes nothing |
| Controllers.Accounts.DeleteUser | src/controllers/userController.js:66-77 | removes the row; 204 "Successfully deleted" iff it existed, else 404 "User does not exists" |

## Left out

- Token signing, verification and expiry are the `Crypto.sign` and `Crypto.verify` fields. Cryptography and the clock are not modelled. The round trip between sign and verify is not assumed.
- bcrypt hashing and comparison are `Crypto.hash` and `Crypto.compare`. The random salt is a parameter of the handlers that hash.
- The email format check of the schema library is the parameter `isEmail`. Its grammar is a foreign library's.
- Mail delivery is not modelled. The gateway's answer is a parameter of the handlers that send mail.
- Routing, the 404 fallback, error handlers and `listen` (`src/index.js`, `src/routes`) are not modelled. So the gates are not chained to the handlers.
- ORM model loading and configuration (`src/models/index.js`, `src/config`) are not modelled.
- `UserService`, `PasswordMiddleware` and `UserMiddleware` are not part of this model. The table they reach is a map. `Controllers.Accounts.UpdateUser` does not require its body to have passed the profile schema. Its only trace of that schema is that `Patch` ignores `ProfileBody.others`, the keys outside the schema. The reset handlers' password and email are assumed to be strings.
- Cookies, headers and `async`/`await` are not modelled. Each request is one sequential step.
- The texts of runtime and ORM errors are not fixed. A thrown fault appears as `Thrown(fault)`.
- AuthMiddleware.NumberOf: covers decimal digit strings and the empty string only. Every other string counts as NaN, although JavaScript's `Number` also accepts surrounding spaces, signs, fractions, exponents and hexadecimal. It also does not model the rounding of integers above 2^53.
- Authenticate verifies the token twice, and the clock could move between the two calls. The model's verifier answers the same both times.
- UserStore.Create: does not model the ORM coercing numbers into string columns. Every non-string value is a type violation. Keys outside the schema that the body spreads into `create` are not modelled either; the signup gate rejects all of them.
- UserStore.MarkVerified: does not model the ORM error for a token without an `id`. Such a token counts as naming no row.
- UserStore.UpdateAny: `UserService`'s answer for a missing row is taken to be 'Not Found'. Either way the handler answers 500.
- String lengths are counted in characters. The source counts UTF-16 code units.
- Controllers.Accounts.LoginUser: never reaches its 500 `catch`. In the program, only a database or bcrypt error leads there, and the model raises neither during login. `Controllers.Accounts.CreateUser` reaches its `catch` only through the store faults above.
- Store lookups (`find`) never fail in the model. In `signupValidation`, such a failure would throw again inside the `catch` and leave the request unanswered. The model does not capture that.
- Controllers.ClaimsOf: one claims value serves both the session token (`{ email, id }`) and the verification-link token (`{ id, email }`). So the model signs both to the same string. In the program, jwt serialises the payload in key order, so the two tokens differ. No proved property depends on this, because the verification link never reaches the mail.
- Express drops the body of a 204 answer. The model keeps the `Successfully deleted` text that the handler passes.
