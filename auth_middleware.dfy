/** The three gates of src/middlewares/authMiddleware.js. Each decides, from
    the request alone (and the user table for the duplicate-email check),
    whether to answer at once or to hand over to the next handler; `Pass`
    carries what the gate attaches to the request. */
module AuthMiddleware {
  import opened Common
  import opened Oracles
  import opened Http
  import opened Helpers
  import opened Joi
  import opened AuthValidation
  import opened UserStore
  import opened Models

  const TokenRequired: string := "Access denied, Token required"
  const CheckUrl: string := "Access denied, check Url"

  /** The outcome of a gate: an answer sent, or `next()` called once with
      what the gate attached to the request. */
  datatype Gate<T> = Stop(response: Response) | Pass(data: T)

  // ---------------------------------------------------------------------------
  // `Number(userId)` on path parameters

  predicate IsDigit(c: char)
  {
    '0' <= c <= '9'
  }

  predicate AllDigits(s: string)
  {
    forall i :: 0 <= i < |s| ==> IsDigit(s[i])
  }

  /** The value of a string of decimal digits. */
  function DigitsValue(s: string): nat
    requires AllDigits(s)
    decreases |s|
  {
    if s == [] then 0
    else DigitsValue(s[..|s| - 1]) * 10 + (s[|s| - 1] as int - '0' as int)
  }

  /** `Number(s)` for the strings a path segment of digits can hold: the
      decimal value, 0 for the empty string, and `None` (NaN) otherwise. */
  function NumberOf(s: string): (r: Option<int>)
    ensures r.Some? <==> AllDigits(s)
    ensures r.Some? ==> r.value >= 0
    ensures s == "" ==> r == Some(0)
  {
    if AllDigits(s) then Some(DigitsValue(s)) else None
  }

  function DigitChar(d: nat): (c: char)
    requires d < 10
    ensures IsDigit(c)
  {
    ('0' as int + d) as char
  }

  /** The decimal rendering of a key, as it appears in a profile URL. */
  function Decimal(n: nat): (s: string)
    ensures |s| >= 1 && AllDigits(s)
  {
    if n < 10 then [DigitChar(n)] else Decimal(n / 10) + [DigitChar(n % 10)]
  }

  /** `Number` reads back the decimal rendering of every key. */
  lemma {:induction false} NumberOfDecimal(n: nat)
    ensures NumberOf(Decimal(n)) == Some(n)
  {
    var s := Decimal(n);
    var last := if n < 10 then n else n % 10;
    assert s[|s| - 1] as int == '0' as int + last;
    if n >= 10 {
      NumberOfDecimal(n / 10);
      assert s[..|s| - 1] == Decimal(n / 10);
    } else {
      assert s[..|s| - 1] == [];
    }
    assert DigitsValue(s) == DigitsValue(s[..|s| - 1]) * 10 + last;
  }

  /** A string of `k` zero digits. */
  function Zeros(k: nat): (z: string)
    ensures |z| == k && AllDigits(z)
  {
    seq(k, _ => '0')
  }

  lemma {:induction false} ZerosValue(k: nat)
    ensures DigitsValue(Zeros(k)) == 0
  {
    if k > 0 {
      ZerosValue(k - 1);
      assert Zeros(k)[..k - 1] == Zeros(k - 1);
    }
  }

  /** Leading zeros do not change `Number` of a digit string. */
  lemma {:induction false} LeadingZeros(k: nat, s: string)
    requires AllDigits(s)
    ensures NumberOf(Zeros(k) + s) == NumberOf(s)
    decreases |s|
  {
    var t := Zeros(k) + s;
    assert AllDigits(t) by {
      forall i | 0 <= i < |t| ensures IsDigit(t[i]) {
        if i >= k { assert t[i] == s[i - k]; }
      }
    }
    if s == [] {
      assert t == Zeros(k);
      ZerosValue(k);
    } else {
      LeadingZeros(k, s[..|s| - 1]);
      assert t[..|t| - 1] == Zeros(k) + s[..|s| - 1];
      assert t[|t| - 1] == s[|s| - 1];
    }
  }

  // ---------------------------------------------------------------------------
  // authenticate

  /** `Number(userId) === id`: NaN and a missing id never match. */
  predicate IdMatches(userId: string, claims: Claims)
  {
    NumberOf(userId).Some? && claims.id == NumberOf(userId)
  }

  function Unauthorized(message: string): Response
  {
    ErrorResponse(Some(401), Some(Literal(message)))
  }

  /** `authenticate`: a token is required; when the path names a user, the
      token's id must be that user's; then the decoded claims become
      `req.data`. Every refusal is a 401. */
  function Authenticate(crypto: Crypto, src: TokenSources, userId: Option<string>): (g: Gate<Claims>)
    ensures !Truthy(GetToken(src)) ==> g == Stop(Unauthorized(TokenRequired))
    ensures g.Pass? <==>
      && Truthy(GetToken(src))
      && VerifyToken(crypto, GetToken(src)).Ok?
      && (userId.Some? ==> IdMatches(userId.value, VerifyToken(crypto, GetToken(src)).value))
    ensures g.Pass? ==> g.data == crypto.verify(GetToken(src).value).value
    ensures Truthy(GetToken(src)) && crypto.verify(GetToken(src).value).Err?
            ==> g == Stop(Unauthorized(InvalidToken))
    ensures Truthy(GetToken(src)) && crypto.verify(GetToken(src).value).Ok? && userId.Some?
            && !IdMatches(userId.value, crypto.verify(GetToken(src).value).value)
            ==> g == Stop(Unauthorized(CheckUrl))
    ensures g.Stop? ==> g.response.status == 401
  {
    var token := GetToken(src);
    if !Truthy(token) then Stop(Unauthorized(TokenRequired))
    else
      var decoded := VerifyToken(crypto, token);
      if userId.Some? && decoded.Err? then Stop(Unauthorized(decoded.error))
      else if userId.Some? && !IdMatches(userId.value, decoded.value) then Stop(Unauthorized(CheckUrl))
      else match decoded
        case Err(message) => Stop(Unauthorized(message))
        case Ok(claims) => Pass(claims)
  }

  /** A token minted for key `n` opens the profile URL of `n`, and no other
      URL whose segment is digits. */
  lemma OwnProfileOnly(crypto: Crypto, src: TokenSources, n: nat, m: nat, claims: Claims)
    requires Truthy(GetToken(src)) && crypto.verify(GetToken(src).value) == Ok(claims)
    requires claims.id == Some(n) && m != n
    ensures Authenticate(crypto, src, Some(Decimal(n))) == Pass(claims)
    ensures Authenticate(crypto, src, Some(Decimal(m))) == Stop(Unauthorized(CheckUrl))
  {
    NumberOfDecimal(n);
    NumberOfDecimal(m);
  }

  /** Leading zeros in the URL still name the token's key: a token for 7
      opens `/007`. */
  lemma PaddedProfileOpens(crypto: Crypto, src: TokenSources, n: nat, k: nat, claims: Claims)
    requires Truthy(GetToken(src)) && crypto.verify(GetToken(src).value) == Ok(claims)
    requires claims.id == Some(n)
    ensures Authenticate(crypto, src, Some(Zeros(k) + Decimal(n))) == Pass(claims)
  {
    NumberOfDecimal(n);
    LeadingZeros(k, Decimal(n));
  }

  /** A request for `/5` with a token minted for id 7 is refused. */
  lemma WrongProfileRefused(crypto: Crypto, src: TokenSources, claims: Claims)
    requires Truthy(GetToken(src)) && crypto.verify(GetToken(src).value) == Ok(claims)
    requires claims.id == Some(7)
    ensures Authenticate(crypto, src, Some("5")) == Stop(Unauthorized(CheckUrl))
  {
  }

  /** Without a path user, the claims' id is never looked at. */
  lemma NoUserIdNoComparison(crypto: Crypto, src: TokenSources, claims: Claims, id': Option<int>)
    requires Truthy(GetToken(src)) && crypto.verify(GetToken(src).value) == Ok(claims)
    ensures Authenticate(crypto, src, None) == Pass(claims)
    ensures Authenticate(crypto.(verify := t => if t == GetToken(src).value then Ok(claims.(id := id'))
                                                else crypto.verify(t)), src, None)
            == Pass(claims.(id := id'))
  {
  }

  // ---------------------------------------------------------------------------
  // signupValidation and loginValidation

  function BadRequest(message: string): Response
  {
    ErrorResponse(Some(400), Some(Literal(message)))
  }

  function Conflict(email: string): Response
  {
    ErrorResponse(Some(409), Some(Literal("User with email: " + email + " already exists")))
  }

  /** `signupValidation`: the first schema error is a 400 with its label (a
      label is never empty, so the 500 branch of the source is never taken);
      a valid body whose email is already held is a 409; otherwise the
      request goes on. */
  function SignupValidation(users: map<int, User>, nextId: int, body: SignupBody,
                            isEmail: string -> bool): (g: Gate<()>)
    ensures g.Pass? <==>
      SignupAcceptable(body, isEmail) && FindByEmail(users, nextId, body.email.s).None?
    ensures ValidateSignupData(body, isEmail).Invalid? ==>
      g == Stop(BadRequest(ValidateSignupData(body, isEmail).caption))
    ensures SignupAcceptable(body, isEmail) && FindByEmail(users, nextId, body.email.s).Some? ==>
      g == Stop(Conflict(body.email.s))
    ensures g.Stop? ==> g.response.status in {400, 409}
  {
    match ValidateSignupData(body, isEmail)
    case Invalid(caption) => Stop(BadRequest(caption))
    case Valid =>
      if FindByEmail(users, nextId, body.email.s).Some? then Stop(Conflict(body.email.s))
      else Pass(())
  }

  /** A body the signup gate lets through is one the store inserts. */
  lemma SignupGateAdmitsCreate(users: map<int, User>, nextId: int, body: SignupBody,
                               isEmail: string -> bool, hash: (string, nat) -> string,
                               salt: nat, now: int)
    requires Consistent(users, nextId)
    requires SignupValidation(users, nextId, body, isEmail) == Pass(())
    ensures Create(users, nextId, body, hash, salt, now).Ok?
    ensures !Create(users, nextId, body, hash, salt, now).value.isVerified
  {
  }

  /** Once a signup is stored, the same body is refused with 409. */
  lemma SecondSignupConflicts(users: map<int, User>, nextId: int, body: SignupBody,
                              isEmail: string -> bool, hash: (string, nat) -> string,
                              salt: nat, now: int)
    requires Consistent(users, nextId)
    requires SignupAcceptable(body, isEmail)
    requires Create(users, nextId, body, hash, salt, now).Ok?
    ensures var u := Create(users, nextId, body, hash, salt, now).value;
            SignupValidation(users[u.id := u], nextId + 1, body, isEmail) == Stop(Conflict(body.email.s))
  {
    var u := Create(users, nextId, body, hash, salt, now).value;
    CreateKeepsValid(users, nextId, body, hash, salt, now);
    FindByEmailNone(users[u.id := u], nextId + 1, body.email.s);
    assert u.id in EmailOwners(users[u.id := u], body.email.s);
  }

  /** `loginValidation`: the first schema error is a 400 with its label;
      otherwise the request goes on. */
  function LoginValidation(body: LoginBody, isEmail: string -> bool): (g: Gate<()>)
    ensures g.Pass? <==> ValidateLoginData(body, isEmail) == Valid
    ensures g.Stop? ==> g.response == BadRequest(ValidateLoginData(body, isEmail).caption)
    ensures g.Stop? ==> g.response.body.message.text != ""
  {
    match ValidateLoginData(body, isEmail)
    case Invalid(caption) => Stop(BadRequest(caption))
    case Valid => Pass(())
  }

  /** The credentials of a body that passed the signup gate pass the login gate. */
  lemma SignupThenLoginGate(users: map<int, User>, nextId: int, body: SignupBody, isEmail: string -> bool)
    requires SignupValidation(users, nextId, body, isEmail) == Pass(())
    ensures LoginValidation(LoginBody(body.email, body.password, []), isEmail) == Pass(())
  {
  }
}
