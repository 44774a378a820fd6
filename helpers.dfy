/** The helper functions of src/utils/helpers.js: the response envelopes, the
    user projection, token extraction from a request, the verification link,
    the error mapping of token verification, and the two collection helpers.
    Signing, verifying, hashing and comparing stay with the `Crypto` oracles. */
module Helpers {
  import opened Common
  import opened Models
  import opened Oracles
  import opened Http

  const DefaultErrorMessage: string := "Some error occurred while processing your Request"
  const InvalidToken: string := "Invalid Token"
  const VerifyPath: string := "/api/auth/verify?token="

  // ---------------------------------------------------------------------------
  // Response envelopes

  /** `successResponse(res, data, code = 200)`: `data` travels unchanged. */
  function SuccessResponse(data: Payload, code: Option<int>): (r: Response)
    ensures StatusField(r.body) == "success" && r.body.data == data
    ensures r.status == (if code.Some? then code.value else 200)
  {
    Response(if code.Some? then code.value else 200, Success(data))
  }

  /** `errorResponse(res, { code = 500, message = <default> })`: a missing code
      or message falls back to the default. */
  function ErrorResponse(code: Option<int>, message: Option<Message>): (r: Response)
    ensures StatusField(r.body) == "fail"
    ensures r.status == (if code.Some? then code.value else 500)
    ensures r.body.message == (if message.Some? then message.value else Literal(DefaultErrorMessage))
  {
    Response(if code.Some? then code.value else 500,
             Fail(if message.Some? then message.value else Literal(DefaultErrorMessage)))
  }

  /** A success envelope and a failure envelope never coincide, whatever the
      codes: clients can always tell them apart by `status`. */
  lemma EnvelopesDiffer(data: Payload, code: Option<int>, code': Option<int>, message: Option<Message>)
    ensures SuccessResponse(data, code) != ErrorResponse(code', message)
    ensures StatusField(SuccessResponse(data, code).body) != StatusField(ErrorResponse(code', message).body)
  {
  }

  // ---------------------------------------------------------------------------
  // User projection

  /** `extractUserData(user)`, where `token` is whatever the handler attached
      to the fetched instance. */
  function ExtractUserData(u: User, token: Option<string>): (d: UserData)
    ensures d.id == u.id && d.token == token
    ensures d.firstName == u.firstName && d.lastName == u.lastName && d.email == u.email
    ensures d.gender == u.gender && d.isVerified == u.isVerified
    ensures d.createdAt == u.createdAt && d.updatedAt == u.updatedAt
  {
    UserData(u.id, token, u.firstName, u.lastName, u.email, u.gender,
             u.isVerified, u.createdAt, u.updatedAt)
  }

  /** The projection never depends on the password digest. */
  lemma ExtractIgnoresPassword(u: User, token: Option<string>, digest: string)
    ensures ExtractUserData(u.(password := digest), token) == ExtractUserData(u, token)
  {
  }

  /** ... and it keeps everything else: two records with the same projection
      differ at most in their password. */
  lemma ExtractKeepsOtherColumns(u: User, v: User, token: Option<string>)
    requires ExtractUserData(u, token) == ExtractUserData(v, token)
    ensures u == v.(password := u.password)
  {
  }

  // ---------------------------------------------------------------------------
  // Token extraction

  /** `s.split(sep)`: the maximal runs between separators, empty runs kept. */
  function Split(s: string, sep: char): (parts: seq<string>)
    ensures |parts| >= 1
    ensures forall i :: 0 <= i < |parts| ==> sep !in parts[i]
  {
    if s == [] then [[]]
    else
      var rest := Split(s[1..], sep);
      if s[0] == sep then [[]] + rest
      else [[s[0]] + rest[0]] + rest[1..]
  }

  /** `parts.join(sep)`, the inverse of `Split`. */
  function Join(parts: seq<string>, sep: char): string
    requires |parts| >= 1
  {
    if |parts| == 1 then parts[0] else parts[0] + [sep] + Join(parts[1..], sep)
  }

  lemma {:induction false} JoinSplit(s: string, sep: char)
    ensures Join(Split(s, sep), sep) == s
  {
    if s != [] {
      JoinSplit(s[1..], sep);
      var rest := Split(s[1..], sep);
      if s[0] == sep {
        assert Join([[]] + rest, sep) == [] + [sep] + Join(rest, sep);
      } else if |rest| == 1 {
        assert s == [s[0]] + s[1..];
      } else {
        var parts := [[s[0]] + rest[0]] + rest[1..];
        assert parts[1..] == rest[1..];
        assert Join(rest, sep) == rest[0] + [sep] + Join(rest[1..], sep);
        assert Join(parts, sep) == [s[0]] + rest[0] + [sep] + Join(rest[1..], sep);
        assert s == [s[0]] + s[1..];
      }
    }
  }

  lemma {:induction false} SplitNoSeparator(s: string, sep: char)
    requires sep !in s
    ensures Split(s, sep) == [s]
  {
    if s != [] {
      assert sep !in s[1..];
      SplitNoSeparator(s[1..], sep);
      assert s == [s[0]] + s[1..];
    }
  }

  lemma {:induction false} SplitAtSeparator(p: string, sep: char, rest: string)
    requires sep !in p
    ensures Split(p + [sep] + rest, sep) == [p] + Split(rest, sep)
  {
    if p == [] {
      assert p + [sep] + rest == [sep] + rest;
      assert ([sep] + rest)[1..] == rest;
    } else {
      assert sep !in p[1..];
      SplitAtSeparator(p[1..], sep, rest);
      var s := p + [sep] + rest;
      assert s[0] == p[0] && s[1..] == p[1..] + [sep] + rest;
      assert [p[0]] + p[1..] == p;
    }
  }

  lemma {:induction false} SplitJoin(parts: seq<string>, sep: char)
    requires |parts| >= 1
    requires forall i :: 0 <= i < |parts| ==> sep !in parts[i]
    ensures Split(Join(parts, sep), sep) == parts
  {
    if |parts| == 1 {
      SplitNoSeparator(parts[0], sep);
    } else {
      SplitJoin(parts[1..], sep);
      SplitAtSeparator(parts[0], sep, Join(parts[1..], sep));
      assert [parts[0]] + parts[1..] == parts;
    }
  }

  /** The bearer value of an `authorization` header: its second space-separated
      part when that part is non-empty, otherwise the whole header. */
  function Bearer(authorization: string): (r: string)
    ensures var parts := Split(authorization, ' ');
            |parts| > 1 && parts[1] != "" ==> r == parts[1] && ' ' !in r
    ensures var parts := Split(authorization, ' ');
            !(|parts| > 1 && parts[1] != "") ==> r == authorization
  {
    var parts := Split(authorization, ' ');
    if |parts| > 1 && parts[1] != "" then parts[1] else authorization
  }

  /** `Bearer <t>` yields `<t>` for a scheme and token without spaces. */
  lemma BearerOfScheme(scheme: string, t: string)
    requires ' ' !in scheme && ' ' !in t && t != ""
    ensures Bearer(scheme + " " + t) == t
  {
    SplitJoin([scheme, t], ' ');
    assert Join([scheme, t], ' ') == scheme + " " + t by {
      assert Join([scheme, t][1..], ' ') == t;
    }
  }

  /** Parts after the second are ignored: `"a b c"` yields `"b"`. */
  lemma BearerIgnoresLaterParts(scheme: string, t: string, rest: string)
    requires ' ' !in scheme && ' ' !in t && t != ""
    ensures Bearer(scheme + " " + t + " " + rest) == t
  {
    SplitAtSeparator(t, ' ', rest);
    SplitAtSeparator(scheme, ' ', t + " " + rest);
    assert scheme + " " + t + " " + rest == scheme + [' '] + (t + [' '] + rest);
  }

  /** Two spaces after the scheme leave an empty second part, so the whole
      header is taken: `"Bearer  t"` yields `"Bearer  t"`. */
  lemma BearerDoubleSpace(scheme: string, rest: string)
    requires ' ' !in scheme
    ensures Bearer(scheme + "  " + rest) == scheme + "  " + rest
  {
    SplitAtSeparator([], ' ', rest);
    SplitAtSeparator(scheme, ' ', " " + rest);
    assert [] + [' '] + rest == " " + rest;
    assert scheme + "  " + rest == scheme + [' '] + (" " + rest);
  }

  /** A header without a space is taken whole. */
  lemma BearerWithoutSpace(authorization: string)
    requires ' ' !in authorization
    ensures Bearer(authorization) == authorization
  {
    SplitNoSeparator(authorization, ' ');
  }

  /** Where a request may carry its token. */
  datatype TokenSources = TokenSources(
    cookie: Option<string>,         // req.cookies.token
    authorization: Option<string>,  // req.headers.authorization
    accessHeader: Option<string>,   // req.headers['x-access-token']
    tokenHeader: Option<string>,    // req.headers.token
    bodyToken: Option<string>)      // req.body.token

  /** The bearer candidate: `null` unless the authorization header is truthy. */
  function BearerToken(src: TokenSources): (r: Option<string>)
    ensures !Truthy(src.authorization) ==> r == None
    ensures Truthy(src.authorization) ==> Truthy(r)
    ensures Truthy(src.authorization) ==> r == Some(Bearer(src.authorization.value))
  {
    if Truthy(src.authorization) then Some(Bearer(src.authorization.value)) else None
  }

  /** `getToken(req)`: the `||` chain over the five sources, cookie first. */
  function GetToken(src: TokenSources): (r: Option<string>)
    ensures Truthy(r) <==> Truthy(src.cookie) || Truthy(src.authorization) || Truthy(src.accessHeader)
                           || Truthy(src.tokenHeader) || Truthy(src.bodyToken)
    ensures Truthy(src.cookie) ==> r == src.cookie
    ensures !Truthy(src.cookie) && Truthy(src.authorization) ==> r == BearerToken(src)
    ensures !Truthy(src.cookie) && !Truthy(src.authorization) && Truthy(src.accessHeader)
            ==> r == src.accessHeader
  {
    Or(src.cookie, Or(BearerToken(src), Or(src.accessHeader, Or(src.tokenHeader, src.bodyToken))))
  }

  /** The candidates in the order the chain tries them. */
  function Candidates(src: TokenSources): (c: seq<Option<string>>)
    ensures |c| == 5
  {
    [src.cookie, BearerToken(src), src.accessHeader, src.tokenHeader, src.bodyToken]
  }

  /** Reference definition of a `||` chain: the first truthy element, or the
      last element when none is truthy. */
  function FirstTruthy(xs: seq<Option<string>>): Option<string>
    requires |xs| >= 1
  {
    if |xs| == 1 || Truthy(xs[0]) then xs[0] else FirstTruthy(xs[1..])
  }

  lemma FirstTruthyCons(x: Option<string>, xs: seq<Option<string>>)
    requires |xs| >= 1
    ensures FirstTruthy([x] + xs) == Or(x, FirstTruthy(xs))
  {
  }

  lemma {:induction false} FirstTruthyIsFirst(xs: seq<Option<string>>)
    requires |xs| >= 1
    ensures Truthy(FirstTruthy(xs)) <==> exists i :: 0 <= i < |xs| && Truthy(xs[i])
    ensures forall i :: 0 <= i < |xs| && Truthy(xs[i]) && (forall j :: 0 <= j < i ==> !Truthy(xs[j]))
              ==> FirstTruthy(xs) == xs[i]
  {
    if |xs| > 1 && !Truthy(xs[0]) {
      FirstTruthyIsFirst(xs[1..]);
      forall i | 0 <= i < |xs| && Truthy(xs[i])
        ensures 1 <= i && Truthy(xs[1..][i - 1])
      {
      }
      forall i | 0 <= i < |xs| && Truthy(xs[i]) && (forall j :: 0 <= j < i ==> !Truthy(xs[j]))
        ensures FirstTruthy(xs) == xs[i]
      {
        assert 1 <= i;
        assert forall j :: 0 <= j < i - 1 ==> !Truthy(xs[1..][j]) by {
          forall j | 0 <= j < i - 1 ensures !Truthy(xs[1..][j]) {
            assert xs[1..][j] == xs[j + 1];
          }
        }
      }
    }
  }

  /** `getToken` is the first truthy candidate in the order cookie, bearer,
      `x-access-token`, `token` header, body `token`; it finds a token exactly
      when some candidate is truthy. */
  lemma GetTokenPrecedence(src: TokenSources)
    ensures GetToken(src) == FirstTruthy(Candidates(src))
    ensures Truthy(GetToken(src)) <==> exists i :: 0 <= i < 5 && Truthy(Candidates(src)[i])
    ensures forall i :: 0 <= i < 5 && Truthy(Candidates(src)[i]) && (forall j :: 0 <= j < i ==> !Truthy(Candidates(src)[j]))
              ==> GetToken(src) == Candidates(src)[i]
  {
    var c := Candidates(src);
    FirstTruthyCons(src.tokenHeader, [src.bodyToken]);
    FirstTruthyCons(src.accessHeader, [src.tokenHeader, src.bodyToken]);
    FirstTruthyCons(BearerToken(src), [src.accessHeader, src.tokenHeader, src.bodyToken]);
    FirstTruthyCons(src.cookie, [BearerToken(src), src.accessHeader, src.tokenHeader, src.bodyToken]);
    FirstTruthyIsFirst(c);
  }

  /** A truthy cookie wins over every header, even a well-formed bearer one. */
  lemma CookieBeforeBearer(src: TokenSources)
    requires Truthy(src.cookie)
    ensures GetToken(src) == src.cookie
  {
  }

  // ---------------------------------------------------------------------------
  // Verification link

  /** The host part of the link: `localhost` gets the configured port. */
  function LinkHost(hostname: string, port: string): string
  {
    if hostname == "localhost" then hostname + ":" + port else hostname
  }

  /** `generateVerificationLink(req, { id, email })`: a day-long token over the
      claims, appended to `<protocol>://<host>/api/auth/verify?token=`. */
  function GenerateVerificationLink(crypto: Crypto, protocol: string, hostname: string,
                                    port: string, claims: Claims): (link: string)
    ensures protocol + "://" + hostname <= link
    ensures var tail := VerifyPath + crypto.sign(claims, SessionLifetime);
            |tail| <= |link| && link[|link| - |tail|..] == tail
  {
    var token := crypto.sign(claims, SessionLifetime);
    var link := protocol + "://" + LinkHost(hostname, port) + VerifyPath + token;
    assert link == (protocol + "://" + hostname) + (LinkHost(hostname, port)[|hostname|..] + VerifyPath + token);
    assert link == (protocol + "://" + LinkHost(hostname, port)) + (VerifyPath + token);
    link
  }

  /** The exact link: away from `localhost` it is
      `<protocol>://<hostname>/api/auth/verify?token=<t>` and the configured
      port never appears in it; on `localhost` the port follows the hostname. */
  lemma VerificationLinkPort(crypto: Crypto, protocol: string, hostname: string,
                             port: string, port': string, claims: Claims)
    ensures hostname != "localhost" ==>
      GenerateVerificationLink(crypto, protocol, hostname, port, claims)
      == protocol + "://" + hostname + VerifyPath + crypto.sign(claims, SessionLifetime)
    ensures hostname != "localhost" ==>
      GenerateVerificationLink(crypto, protocol, hostname, port, claims)
      == GenerateVerificationLink(crypto, protocol, hostname, port', claims)
    ensures hostname == "localhost" ==>
      GenerateVerificationLink(crypto, protocol, hostname, port, claims)
      == protocol + "://localhost:" + port + VerifyPath + crypto.sign(claims, SessionLifetime)
  {
  }

  // ---------------------------------------------------------------------------
  // Token verification

  /** `verifyToken(token)`: the decoded claims, or the single error
      'Invalid Token' whatever the reason of the rejection. A missing or empty
      token is rejected before the signature is looked at. */
  function VerifyToken(crypto: Crypto, token: Option<string>): (r: Result<Claims, string>)
    ensures r.Err? ==> r.error == InvalidToken
    ensures !Truthy(token) ==> r.Err?
    ensures Truthy(token) ==> (r.Ok? <==> crypto.verify(token.value).Ok?)
    ensures r.Ok? ==> Truthy(token) && r.value == crypto.verify(token.value).value
  {
    if !Truthy(token) then Err(InvalidToken)
    else match crypto.verify(token.value)
      case Ok(claims) => Ok(claims)
      case Err(_) => Err(InvalidToken)
  }

  // ---------------------------------------------------------------------------
  // Collections

  /** `updateCollection(collection, options)`: each item spread with the
      options, the options winning on shared keys. */
  function UpdateCollection<K, V>(collection: seq<map<K, V>>, options: map<K, V>): (r: seq<map<K, V>>)
    ensures |r| == |collection|
    ensures forall i :: 0 <= i < |r| ==> r[i].Keys == collection[i].Keys + options.Keys
    ensures forall i, k :: 0 <= i < |r| && k in options ==> r[i][k] == options[k]
    ensures forall i, k :: 0 <= i < |r| && k in collection[i] && k !in options ==> r[i][k] == collection[i][k]
  {
    if collection == [] then []
    else [collection[0] + options] + UpdateCollection(collection[1..], options)
  }

  /** Applying the same options twice changes nothing more. */
  lemma UpdateCollectionIdempotent<K, V>(collection: seq<map<K, V>>, options: map<K, V>)
    ensures UpdateCollection(UpdateCollection(collection, options), options)
         == UpdateCollection(collection, options)
  {
    var once := UpdateCollection(collection, options);
    var twice := UpdateCollection(once, options);
    forall i | 0 <= i < |once| ensures twice[i] == once[i] {
    }
  }

  /** Two updates in a row are one update with the later options on top. */
  lemma {:induction false} UpdateCollectionCompose<K, V>(collection: seq<map<K, V>>, first: map<K, V>, second: map<K, V>)
    ensures UpdateCollection(UpdateCollection(collection, first), second)
         == UpdateCollection(collection, first + second)
  {
    if collection != [] {
      UpdateCollectionCompose(collection[1..], first, second);
      var once := UpdateCollection(collection, first);
      assert once[1..] == UpdateCollection(collection[1..], first);
      assert (collection[0] + first) + second == collection[0] + (first + second);
    }
  }

  /** An ORM instance; only its `dataValues` are read. */
  datatype Instance<T> = Instance(dataValues: T)

  /** `extractArrayRecords(dataArray)`: the `dataValues` of each instance. */
  function ExtractArrayRecords<T>(rows: seq<Instance<T>>): (r: seq<T>)
    ensures |r| == |rows|
    ensures forall i :: 0 <= i < |rows| ==> r[i] == rows[i].dataValues
  {
    if rows == [] then [] else [rows[0].dataValues] + ExtractArrayRecords(rows[1..])
  }
}
