/** The handlers of src/controllers/authController.js and
    src/controllers/userController.js as methods of one object that owns the
    user table. Each handler is one request: it reads or writes the table,
    and its `Reply` is what it sends (status and JSON body, the `token`
    cookie, and the mail it hands to the gateway). The gateway's answer and
    the clock are parameters. */
module Controllers {
  import opened Common
  import opened Models
  import opened Oracles
  import opened Mailer
  import opened Http
  import opened Helpers
  import opened AuthValidation
  import opened UserValidation
  import opened UserStore

  /** `maxAge` of the session cookie: one day in milliseconds. */
  const SessionMaxAge: int := 86400000
  const WelcomeTemplate: string := "d-e072524f25744ea3a65cfb1baa794094"
  const ResetTemplate: string := "d-a4f399a537ee49598ca1ebd4a19f527e"
  const ResetPath: string := "/api/auth/reset-password?token="
  const ChangePath: string := "/api/auth/password/reset/"
  const ChangeInstructions: string :=
    " using POST Method with body 'password': 'newpassword' and 'confirmPassword': 'newpassword'"

  const BadVerification: string := "Invalid token, verification unsuccessful"
  const NobodyToVerify: string := "No user found to verify"
  const AccountMissing: string := "User account does not exist"
  const ResetSent: string := "Password reset link sent successfully"
  const PasswordChanged: string := "Password has been changed successfully"
  const UserMissing: string := "User does not exists"
  const WrongPassword: string := "Password is not correct, try again"
  const LoggedOut: string := "You have been successfully logged out"
  const Deleted: string := "Successfully deleted"

  /** What Express reports about the request's origin: `req.protocol`,
      `req.hostname`, and the `Host` header (`req.get('host')`). */
  datatype Origin = Origin(protocol: string, hostname: string, host: string)

  /** `errorResponse(res, { code, message })` with a literal message. */
  function Refusal(code: int, message: string): Response
  {
    ErrorResponse(Some(code), Some(Literal(message)))
  }

  /** A reply that only answers. */
  function Answer(response: Response): Reply
  {
    Reply(Some(response), KeepCookie, None)
  }

  /** The claims every session, verification and reset token carries. */
  function ClaimsOf(u: User): Claims
  {
    Claims(Some(u.id), Some(u.email))
  }

  /** The link of the reset mail: `<protocol>://<host>/api/auth/reset-password?token=<t>`. */
  function ResetUrl(origin: Origin, token: string): (url: string)
    ensures origin.protocol + "://" + origin.host <= url
    ensures |ResetPath + token| <= |url| && url[|url| - |ResetPath + token|..] == ResetPath + token
  {
    var url := origin.protocol + "://" + origin.host + ResetPath + token;
    assert url == (origin.protocol + "://" + origin.host) + (ResetPath + token);
    url
  }

  /** The address a reset link sends the client to:
      `<protocol>://<host>/api/auth/password/reset/<email>`. */
  function ChangeUrl(origin: Origin, email: Option<string>): (url: string)
    ensures origin.protocol + "://" + origin.host <= url
    ensures var tail := ChangePath + Render(email);
            |tail| <= |url| && url[|url| - |tail|..] == tail
  {
    var url := origin.protocol + "://" + origin.host + ChangePath + Render(email);
    assert url == (origin.protocol + "://" + origin.host) + (ChangePath + Render(email));
    url
  }

  class Accounts {
    /** The signing secret and the bcrypt routines, fixed at start-up. */
    const crypto: Crypto
    /** The configured `PORT`, used in verification links on `localhost`. */
    const port: string
    /** The user table, keyed by id, and its auto-increment counter. */
    var users: map<int, User>
    var nextId: int

    ghost predicate Valid()
      reads this
    {
      Consistent(users, nextId)
    }

    constructor(crypto: Crypto, port: string)
      ensures Valid()
      ensures this.crypto == crypto && this.port == port
      ensures users == map[] && nextId == 1
    {
      this.crypto := crypto;
      this.port := port;
      users := map[];
      nextId := 1;
    }

    // -------------------------------------------------------------------------
    // authController.js

    /** `createUser`: store the body; on any failure answer 500 with the
        default message and change nothing. On success answer 201 with the
        projection of the new, unverified row, its session token and the
        gateway's answer as `emailSent`, set the session cookie, and mail the
        welcome template, whose link is lost because the gateway reads
        `urlLink` and the handler passes `verificationLink`. */
    method CreateUser(body: SignupBody, origin: Origin, salt: nat, now: int, mailOutcome: MailResult)
      returns (r: Reply)
      requires Valid()
      modifies this
      ensures Valid() && VerifiedKept(old(users), users)
      ensures var created := Create(old(users), old(nextId), body, crypto.hash, salt, now);
        created.Err? ==>
          && r == Answer(ErrorResponse(None, None))
          && users == old(users) && nextId == old(nextId)
      ensures var created := Create(old(users), old(nextId), body, crypto.hash, salt, now);
        created.Ok? ==>
          var u := created.value;
          var token := crypto.sign(ClaimsOf(u), SessionLifetime);
          && users == old(users)[old(nextId) := u] && nextId == old(nextId) + 1
          && !users[old(nextId)].isVerified
          && r.response == Some(SuccessResponse(Registered(ExtractUserData(u, Some(token)), mailOutcome), Some(201)))
          && r.cookie == SetToken(token, SessionMaxAge, true)
          && r.mail == Some(Mail(u.email, WelcomeTemplate, u.firstName, None))
    {
      var created := Create(users, nextId, body, crypto.hash, salt, now);
      match created {
        case Err(_) =>
          r := Answer(ErrorResponse(None, None));
        case Ok(u) =>
          CreateKeepsValid(users, nextId, body, crypto.hash, salt, now);
          users := users[u.id := u];
          nextId := nextId + 1;
          var token := crypto.sign(ClaimsOf(u), SessionLifetime);
          var data := ExtractUserData(u, Some(token));
          var link := GenerateVerificationLink(crypto, origin.protocol, origin.hostname, port, ClaimsOf(u));
          var options := MailOptions(data.email, WelcomeTemplate, data.firstName, None, Some(link));
          r := Reply(Some(SuccessResponse(Registered(data, mailOutcome), Some(201))),
                     SetToken(token, SessionMaxAge, true),
                     Some(Compose(options)));
      }
    }

    /** `verifyEmail`: an unverifiable token is a 400; a token whose id names
        no row is a 400; otherwise that row, and only it, becomes verified
        and its projection is the answer. */
    method VerifyEmail(token: Option<string>, now: int) returns (r: Reply)
      requires Valid()
      modifies this
      ensures Valid() && VerifiedKept(old(users), users) && nextId == old(nextId)
      ensures VerifyToken(crypto, token).Err? ==>
        r == Answer(Refusal(400, BadVerification)) && users == old(users)
      ensures VerifyToken(crypto, token).Ok? ==>
        var id := VerifyToken(crypto, token).value.id;
        && (!(id.Some? && id.value in old(users)) ==>
              r == Answer(Refusal(400, NobodyToVerify)) && users == old(users))
        && (id.Some? && id.value in old(users) ==>
              && users == old(users)[id.value := old(users)[id.value].(isVerified := true, updatedAt := now)]
              && users[id.value].isVerified
              && r == Answer(SuccessResponse(Profile(ExtractUserData(users[id.value], None)), None)))
    {
      match VerifyToken(crypto, token) {
        case Err(_) =>
          r := Answer(Refusal(400, BadVerification));
        case Ok(claims) =>
          match MarkVerified(users, claims.id, now) {
            case Err(_) =>
              r := Answer(Refusal(400, NobodyToVerify));
            case Ok(u) =>
              MarkVerifiedKeepsValid(users, nextId, claims.id.value, now, now);
              users := users[claims.id.value := u];
              r := Answer(SuccessResponse(Profile(ExtractUserData(u, None)), None));
          }
      }
    }

    /** `sendResetPasswordEmail`: an unknown email is a 404. Otherwise the
        reset template goes to the account with a day-long token over its id
        and email, and the answer is 200 when the gateway's answer is truthy
        (a delivery failure with a non-empty message included); when it is
        not, the handler sends nothing. */
    method SendResetPasswordEmail(email: string, origin: Origin, mailOutcome: MailResult)
      returns (r: Reply)
      ensures FindByEmail(users, nextId, email).None? ==> r == Answer(Refusal(404, AccountMissing))
      ensures FindByEmail(users, nextId, email).Some? ==>
        var u := FindByEmail(users, nextId, email).value;
        var token := crypto.sign(Claims(Some(u.id), Some(email)), ResetLifetime);
        && r.mail == Some(Mail(email, ResetTemplate, u.firstName, Some(ResetUrl(origin, token))))
        && r.cookie == KeepCookie
        && (Succeeded(mailOutcome) ==> r.response == Some(SuccessResponse(Text(ResetSent), Some(200))))
        && (!Succeeded(mailOutcome) ==> r.response.None?)
    {
      match FindByEmail(users, nextId, email) {
        case None =>
          r := Answer(Refusal(404, AccountMissing));
        case Some(u) =>
          var token := crypto.sign(Claims(Some(u.id), Some(email)), ResetLifetime);
          var mail := Compose(MailOptions(email, ResetTemplate, u.firstName, Some(ResetUrl(origin, token)), None));
          var response := if Succeeded(mailOutcome)
                          then Some(SuccessResponse(Text(ResetSent), Some(200)))
                          else None;
          r := Reply(response, KeepCookie, Some(mail));
      }
    }

    /** `resetPassword`: no token is asked for; the path email alone selects
        the account. The answer is 200 exactly when one row was written, which
        on a valid table is exactly when the email is held; otherwise 404. */
    method ResetPassword(password: string, email: string, salt: nat, now: int) returns (r: Reply)
      requires Valid()
      modifies this
      ensures Valid() && VerifiedKept(old(users), users) && nextId == old(nextId)
      ensures users == UpdatePassword(old(users), email, crypto.hash(password, salt), now).0
      ensures FindByEmail(old(users), nextId, email).Some? ==>
        r == Answer(SuccessResponse(Text(PasswordChanged), Some(200)))
      ensures FindByEmail(old(users), nextId, email).None? ==>
        r == Answer(Refusal(404, AccountMissing)) && users == old(users)
    {
      UpdatePasswordCount(users, nextId, email, crypto.hash(password, salt), now);
      var (after, count) := UpdatePassword(users, email, crypto.hash(password, salt), now);
      if FindByEmail(users, nextId, email).None? {
        assert after == users;
      }
      users := after;
      if count == 1 {
        r := Answer(SuccessResponse(Text(PasswordChanged), Some(200)));
      } else {
        r := Answer(Refusal(404, AccountMissing));
      }
    }

    /** `verifyPasswordResetLink`: an unverifiable token is a 500
        "Verification unsuccessful, Invalid Token"; a valid one is a 200
        telling the client where to post the new password, an address that
        ends with the token's email. The table is not read. */
    method VerifyPasswordResetLink(token: Option<string>, origin: Origin) returns (r: Reply)
      ensures VerifyToken(crypto, token).Err? ==>
        r == Answer(Refusal(500, "Verification unsuccessful, " + InvalidToken))
      ensures VerifyToken(crypto, token).Ok? ==>
        r == Answer(SuccessResponse(
               Text("Goto " + ChangeUrl(origin, VerifyToken(crypto, token).value.email) + ChangeInstructions),
               Some(200)))
    {
      match VerifyToken(crypto, token) {
        case Err(message) =>
          r := Answer(Refusal(500, "Verification unsuccessful, " + message));
        case Ok(claims) =>
          var url := ChangeUrl(origin, claims.email);
          r := Answer(SuccessResponse(Text("Goto " + url + ChangeInstructions), Some(200)));
      }
    }

    /** `loginUser`: the account is looked up before the password is
        compared; a missing account and a wrong password are both 401 with
        their own message; success answers the projection with a fresh
        day-long token over the account's email and id, also set as cookie. */
    method LoginUser(email: string, password: string) returns (r: Reply)
      ensures FindByEmail(users, nextId, email).None? ==> r == Answer(Refusal(401, UserMissing))
      ensures FindByEmail(users, nextId, email).Some? ==>
        var u := FindByEmail(users, nextId, email).value;
        && (!crypto.compare(password, u.password) ==> r == Answer(Refusal(401, WrongPassword)))
        && (crypto.compare(password, u.password) ==>
              var token := crypto.sign(ClaimsOf(u), SessionLifetime);
              && r.response == Some(SuccessResponse(Profile(ExtractUserData(u, Some(token))), None))
              && r.cookie == SetToken(token, SessionMaxAge, true)
              && r.mail.None?)
      ensures r.response.Some? && (r.response.value.status == 200 <==>
        FindByEmail(users, nextId, email).Some?
        && crypto.compare(password, FindByEmail(users, nextId, email).value.password))
    {
      match FindByEmail(users, nextId, email) {
        case None =>
          r := Answer(Refusal(401, UserMissing));
        case Some(u) =>
          if !crypto.compare(password, u.password) {
            r := Answer(Refusal(401, WrongPassword));
          } else {
            var token := crypto.sign(ClaimsOf(u), SessionLifetime);
            var data := ExtractUserData(u, Some(token));
            r := Reply(Some(SuccessResponse(Profile(data), None)), SetToken(data.token.value, SessionMaxAge, true), None);
          }
      }
    }

    /** `logout`: clear the cookie and answer 200; the table is not touched. */
    method Logout() returns (r: Reply)
      ensures r.response.Some? && r.response.value.status == 200
      ensures r.response.value.body == Success(Notice(200, LoggedOut))
      ensures r.cookie == ClearToken(true) && r.mail.None?
    {
      r := Reply(Some(SuccessResponse(Notice(200, LoggedOut), None)), ClearToken(true), None);
    }

    // -------------------------------------------------------------------------
    // userController.js

    /** `getUser`: the projection of the row with that id. A missing row is
        read as `null`, the projection throws, and the handler answers with
        the thrown error's `statusCode`, which is undefined: the default 500. */
    method GetUser(userId: int) returns (r: Reply)
      ensures userId in users ==>
        r == Answer(SuccessResponse(Profile(ExtractUserData(users[userId], None)), Some(200)))
      ensures userId !in users ==>
        r == Answer(ErrorResponse(None, Some(Thrown(NullRecord)))) && r.response.value.status == 500
    {
      if userId in users {
        r := Answer(SuccessResponse(Profile(ExtractUserData(users[userId], None)), Some(200)));
      } else {
        r := Answer(ErrorResponse(None, Some(Thrown(NullRecord))));
      }
    }

    /** `updateUser`: write the profile keys of the body to the row and answer
        its projection; a store failure is answered 500 with the store's
        error, and nothing changes. */
    method UpdateUser(userId: int, body: ProfileBody, now: int) returns (r: Reply)
      requires Valid()
      modifies this
      ensures Valid() && VerifiedKept(old(users), users) && nextId == old(nextId)
      ensures UpdateAny(old(users), userId, body, now).Err? ==>
        && r == Answer(ErrorResponse(None, Some(Thrown(UpdateAny(old(users), userId, body, now).error))))
        && r.response.value.status == 500
        && users == old(users)
      ensures UpdateAny(old(users), userId, body, now).Ok? ==>
        var u := UpdateAny(old(users), userId, body, now).value;
        && users == old(users)[userId := u]
        && r == Answer(SuccessResponse(Profile(ExtractUserData(u, None)), Some(200)))
    {
      match UpdateAny(users, userId, body, now) {
        case Err(fault) =>
          r := Answer(ErrorResponse(None, Some(Thrown(fault))));
        case Ok(u) =>
          UpdateAnyKeepsValid(users, nextId, userId, body, now);
          users := users[userId := u];
          r := Answer(SuccessResponse(Profile(ExtractUserData(u, None)), Some(200)));
      }
    }

    /** `deleteUser`: 204 exactly when one row was removed, else 404. */
    method DeleteUser(userId: int) returns (r: Reply)
      requires Valid()
      modifies this
      ensures Valid() && VerifiedKept(old(users), users) && nextId == old(nextId)
      ensures users == old(users) - {userId}
      ensures userId in old(users) ==> r == Answer(SuccessResponse(Text(Deleted), Some(204)))
      ensures userId !in old(users) ==> r == Answer(Refusal(404, UserMissing))
    {
      DeleteKeepsValid(users, nextId, userId);
      var (after, count) := DeleteOne(users, userId);
      users := after;
      if count == 1 {
        r := Answer(SuccessResponse(Text(Deleted), Some(204)));
      } else {
        r := Answer(Refusal(404, UserMissing));
      }
    }
  }
}
