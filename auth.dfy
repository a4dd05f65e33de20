/**
 * Token issue and verification (app/auth.py).
 *
 * A JSON Web Token is modelled symbolically: a signed token records the
 * claims, the key and the algorithm it was signed with, and decoding succeeds
 * exactly when the verifier's key matches and the algorithm is one it allows.
 * The payload carries the registered claims `sub` and `exp` of section 4.1.2
 * and section 4.1.4 of RFC 7519. Time is an integer number of seconds.
 *
 * The library's own decoder also refuses a token whose `exp` has passed, so
 * the handler's own "expired" branch is never reached as written; the
 * verifier the handlers use is the evidently intended one, which decodes
 * without that check and answers an expired token with 401.
 */
module Auth {
  import opened Results
  import opened Models

  // ---------------------------------------------------------------------------
  // Symbolic JWT
  // ---------------------------------------------------------------------------

  /** A claim value in the JSON payload. */
  datatype Claim = Text(s: string) | Number(n: int)

  type Claims = map<string, Claim>

  /**
   * The bearer credential of a request: a token the encoder produced, any
   * other string, or none at all (no Authorization header, or one whose
   * scheme is not Bearer).
   */
  datatype Token = Signed(claims: Claims, key: string, algorithm: string) | Malformed(raw: string) | Absent

  /** `jwt.encode(payload, key, algorithm)`. */
  function Encode(claims: Claims, key: string, algorithm: string): Token {
    Signed(claims, key, algorithm)
  }

  /**
   * `jwt.decode(token, key, algorithms=..., options={"verify_exp": False})`:
   * the signature check alone. None stands for a raised JWTError.
   */
  function Decode(token: Token, key: string, algorithms: seq<string>): (r: Option<Claims>)
    ensures r.Some? <==> token.Signed? && token.key == key && token.algorithm in algorithms
  {
    match token
    case Signed(claims, k, alg) => if k == key && alg in algorithms then Some(claims) else None
    case _ => None
  }

  /** An integer `exp` claim earlier than the current second. */
  predicate Expired(claims: Claims, now: int) {
    EXP in claims && claims[EXP].Number? && claims[EXP].n < now
  }

  /**
   * `jwt.decode(token, key, algorithms=...)` with its default options: the
   * signature check, then the expiry check against the current second with no
   * leeway (ExpiredSignatureError, itself a JWTError). A non-integer `exp` is
   * left to the payload validation, which refuses it as well.
   */
  function DecodeDefault(token: Token, key: string, algorithms: seq<string>, now: int): (r: Option<Claims>)
    ensures r.Some? <==> Decode(token, key, algorithms).Some? && !Expired(Decode(token, key, algorithms).value, now)
    ensures r.Some? ==> r == Decode(token, key, algorithms)
  {
    match Decode(token, key, algorithms)
    case None => None
    case Some(claims) => if Expired(claims, now) then None else Some(claims)
  }

  /** Decoding with the signing key and algorithm gives back the payload. */
  lemma DecodeEncode(claims: Claims, key: string, algorithm: string)
    ensures Decode(Encode(claims, key, algorithm), key, [algorithm]) == Some(claims)
  {
  }

  /** Decoding with any other key fails. */
  lemma DecodeWithOtherKeyFails(claims: Claims, key: string, other: string, algorithm: string, algorithms: seq<string>)
    requires other != key
    ensures Decode(Encode(claims, key, algorithm), other, algorithms) == None
  {
  }

  // ---------------------------------------------------------------------------
  // Configuration and payload
  // ---------------------------------------------------------------------------

  /** SECRET_KEY, REFRESH_SECRET_KEY, ALGORITHM and the two lifetimes in minutes. */
  datatype Config = Config(
    secretKey: string,
    refreshSecretKey: string,
    algorithm: string,
    accessLifetime: int,
    refreshLifetime: int
  )

  const SUB: string := "sub"
  const EXP: string := "exp"
  const SECONDS_PER_MINUTE: int := 60

  /** The validated payload (`TokenPayload`): subject and expiry in seconds. */
  datatype TokenPayload = TokenPayload(sub: string, exp: int)

  /** `{"exp": exp, "sub": subject}`. */
  function PayloadClaims(subject: string, exp: int): Claims {
    map[EXP := Number(exp), SUB := Text(subject)]
  }

  /** `TokenPayload(**payload)`: both claims present with the right types, else a ValidationError (None). */
  function ParsePayload(claims: Claims): (r: Option<TokenPayload>)
    ensures r.Some? <==> SUB in claims && claims[SUB].Text? && EXP in claims && claims[EXP].Number?
  {
    if SUB in claims && claims[SUB].Text? && EXP in claims && claims[EXP].Number? then
      Some(TokenPayload(claims[SUB].s, claims[EXP].n))
    else
      None
  }

  /** The payload the verifier reads from a token, when decoding and validation both succeed. */
  function DecodePayload(token: Token, key: string, algorithm: string): Option<TokenPayload> {
    match Decode(token, key, [algorithm])
    case None => None
    case Some(claims) => ParsePayload(claims)
  }

  // ---------------------------------------------------------------------------
  // Subjects: str(user.id) and the primary-key lookup
  // ---------------------------------------------------------------------------

  function DigitChar(d: nat): (c: char)
    requires d < 10
    ensures IsDigit(c)
  {
    ('0' as int + d) as char
  }

  function DigitValue(c: char): (d: nat)
    requires IsDigit(c)
    ensures d < 10
  {
    c as int - '0' as int
  }

  predicate AllDigits(s: string) {
    forall i :: 0 <= i < |s| ==> IsDigit(s[i])
  }

  /** `str(n)` for a non-negative integer: decimal digits, no leading zero. */
  function IdToString(n: nat): (s: string)
    ensures |s| >= 1 && AllDigits(s)
    ensures |s| > 1 ==> s[0] != '0'
  {
    if n < 10 then [DigitChar(n)] else IdToString(n / 10) + [DigitChar(n % 10)]
  }

  /** The number a string of decimal digits denotes. */
  function DigitsValue(s: string): nat
    requires AllDigits(s)
  {
    if s == [] then 0 else DigitsValue(s[..|s| - 1]) * 10 + DigitValue(s[|s| - 1])
  }

  /** The integer primary key a subject names, if it is a decimal numeral. */
  function ParseId(s: string): (r: Option<nat>)
    ensures r.Some? <==> |s| > 0 && AllDigits(s)
  {
    if |s| > 0 && AllDigits(s) then Some(DigitsValue(s)) else None
  }

  lemma {:induction false} DigitsValueOfIdToString(n: nat)
    ensures DigitsValue(IdToString(n)) == n
  {
    if n >= 10 {
      var prefix := IdToString(n / 10);
      var s := prefix + [DigitChar(n % 10)];
      assert s[..|s| - 1] == prefix;
      DigitsValueOfIdToString(n / 10);
    }
  }

  /** A subject written as `str(id)` names that id again. */
  lemma ParseIdToString(n: nat)
    ensures ParseId(IdToString(n)) == Some(n)
  {
    DigitsValueOfIdToString(n);
  }

  /** `db.get(User, sub)`: the row whose primary key the subject names, if any. */
  function SubjectUser(users: map<nat, User>, sub: string): (r: Option<User>)
    ensures r.Some? <==> ParseId(sub).Some? && ParseId(sub).value in users
    ensures r.Some? ==> r.value == users[ParseId(sub).value]
  {
    match ParseId(sub)
    case Some(id) => if id in users then Some(users[id]) else None
    case None => None
  }

  // ---------------------------------------------------------------------------
  // Issuing tokens
  // ---------------------------------------------------------------------------

  /** `create_access_token(subject)` at time `now`. */
  function CreateAccessToken(subject: string, now: int, config: Config): (t: Token)
    ensures DecodePayload(t, config.secretKey, config.algorithm)
         == Some(TokenPayload(subject, now + config.accessLifetime * SECONDS_PER_MINUTE))
  {
    Encode(PayloadClaims(subject, now + config.accessLifetime * SECONDS_PER_MINUTE), config.secretKey, config.algorithm)
  }

  /** `create_refresh_token(subject)` at time `now`: the same shape under the refresh secret and lifetime. */
  function CreateRefreshToken(subject: string, now: int, config: Config): (t: Token)
    ensures DecodePayload(t, config.refreshSecretKey, config.algorithm)
         == Some(TokenPayload(subject, now + config.refreshLifetime * SECONDS_PER_MINUTE))
    ensures config.refreshSecretKey != config.secretKey ==> DecodePayload(t, config.secretKey, config.algorithm) == None
  {
    Encode(PayloadClaims(subject, now + config.refreshLifetime * SECONDS_PER_MINUTE), config.refreshSecretKey, config.algorithm)
  }

  /** The response of the login route. */
  datatype TokenPair = TokenPair(accessToken: Token, refreshToken: Token)

  /** The login response for a subject: an access token and a refresh token, each readable only under its own key. */
  function IssueTokens(subject: string, now: int, config: Config): (pair: TokenPair)
    ensures DecodePayload(pair.accessToken, config.secretKey, config.algorithm)
         == Some(TokenPayload(subject, now + config.accessLifetime * SECONDS_PER_MINUTE))
    ensures DecodePayload(pair.refreshToken, config.refreshSecretKey, config.algorithm)
         == Some(TokenPayload(subject, now + config.refreshLifetime * SECONDS_PER_MINUTE))
  {
    TokenPair(CreateAccessToken(subject, now, config), CreateRefreshToken(subject, now, config))
  }

  // ---------------------------------------------------------------------------
  // Verifying tokens
  // ---------------------------------------------------------------------------

  /** Why `get_request_user` rejects a request. */
  datatype AuthError =
    | NotAuthenticated // 401 'Not authenticated', raised by the OAuth2 bearer scheme itself
    | InvalidToken     // 403 'Неверный токен'
    | TokenExpired     // 401 'Токен истек'
    | UnknownSubject   // 404 'Пользователь не найден'

  function AuthStatus(e: AuthError): int {
    match e
    case NotAuthenticated => 401
    case InvalidToken => 403
    case TokenExpired => 401
    case UnknownSubject => 404
  }

  /** `UserSchema`: the user's public columns; the password hash has no place in it. */
  datatype UserView = UserView(id: nat, email: string, name: string, isActive: bool)

  /** The view carries exactly the four public columns of the row. */
  function View(u: User): (v: UserView)
    ensures v.id == u.id && v.email == u.email && v.name == u.name && v.isActive == u.isActive
  {
    UserView(u.id, u.email, u.name, u.isActive)
  }

  /** The view does not depend on the password hash. */
  lemma ViewIgnoresPassword(u: User, password: string)
    ensures View(u.(password := password)) == View(u)
  {
  }

  /**
   * `get_request_user(token)` at time `now` as evidently intended: refuse a
   * request without a bearer token, decode under SECRET_KEY without the
   * library's expiry check, validate the payload, reject an expiry earlier
   * than now, look the subject up.
   */
  function GetRequestUser(token: Token, now: int, users: map<nat, User>, config: Config): (r: Result<UserView, AuthError>)
    ensures r == Err(NotAuthenticated) <==> token.Absent?
    ensures r == Err(InvalidToken) <==>
              !token.Absent? && DecodePayload(token, config.secretKey, config.algorithm).None?
    ensures r == Err(TokenExpired) <==>
              (var p := DecodePayload(token, config.secretKey, config.algorithm); p.Some? && p.value.exp < now)
    ensures r == Err(UnknownSubject) <==>
              (var p := DecodePayload(token, config.secretKey, config.algorithm);
               p.Some? && now <= p.value.exp && SubjectUser(users, p.value.sub).None?)
    ensures r.Ok? ==>
              (var p := DecodePayload(token, config.secretKey, config.algorithm);
               p.Some? && now <= p.value.exp && ParseId(p.value.sub).Some?
               && ParseId(p.value.sub).value in users && r.value == View(users[ParseId(p.value.sub).value]))
  {
    if token.Absent? then Err(NotAuthenticated)
    else
      match DecodePayload(token, config.secretKey, config.algorithm)
      case None => Err(InvalidToken)
      case Some(payload) =>
        if payload.exp < now then Err(TokenExpired)
        else
          match SubjectUser(users, payload.sub)
          case None => Err(UnknownSubject)
          case Some(u) => Ok(View(u))
  }

  /**
   * `get_request_user(token)` as written: `jwt.decode` with its default
   * options already refuses an expired token, and the ExpiredSignatureError
   * it raises is caught as a JWTError, so an expired token answers 403 and
   * the 401 branch after the decoding is never taken.
   */
  function GetRequestUserAsWritten(token: Token, now: int, users: map<nat, User>, config: Config)
    : (r: Result<UserView, AuthError>)
    ensures r != Err(TokenExpired)
    ensures r == Err(InvalidToken) <==>
              !token.Absent? &&
              (var p := DecodePayload(token, config.secretKey, config.algorithm); p.None? || p.value.exp < now)
  {
    if token.Absent? then Err(NotAuthenticated)
    else
      match DecodeDefault(token, config.secretKey, [config.algorithm], now)
      case None => Err(InvalidToken)
      case Some(claims) =>
        match ParsePayload(claims)
        case None => Err(InvalidToken)
        case Some(payload) =>
          if payload.exp < now then Err(TokenExpired)
          else
            match SubjectUser(users, payload.sub)
            case None => Err(UnknownSubject)
            case Some(u) => Ok(View(u))
  }

  /** The verifier as written answers like the intended one, except that an expired token gets 403 instead of 401. */
  lemma AsWrittenDiffersOnlyOnExpiry(token: Token, now: int, users: map<nat, User>, config: Config)
    ensures var intended := GetRequestUser(token, now, users, config);
            GetRequestUserAsWritten(token, now, users, config)
            == if intended == Err(TokenExpired) then Err(InvalidToken) else intended
  {
  }

  /** As written, an access token past its expiry is answered 403, not 401. */
  lemma ExpiredAccessTokenAnswers403AsWritten(users: map<nat, User>, subject: string, issuedAt: int, now: int,
                                               config: Config)
    requires issuedAt + config.accessLifetime * SECONDS_PER_MINUTE < now
    ensures GetRequestUserAsWritten(CreateAccessToken(subject, issuedAt, config), now, users, config) == Err(InvalidToken)
  {
  }

  /** A request without a bearer token is refused with 401 before the token is looked at. */
  lemma AbsentTokenRejected(users: map<nat, User>, now: int, config: Config)
    ensures GetRequestUser(Absent, now, users, config) == Err(NotAuthenticated)
    ensures GetRequestUserAsWritten(Absent, now, users, config) == Err(NotAuthenticated)
    ensures AuthStatus(NotAuthenticated) == 401
  {
  }

  /** An access token issued for `str(id)` identifies that user until it expires. */
  lemma AccessTokenIdentifiesUser(users: map<nat, User>, id: nat, issuedAt: int, now: int, config: Config)
    requires id in users
    requires now <= issuedAt + config.accessLifetime * SECONDS_PER_MINUTE
    ensures GetRequestUser(CreateAccessToken(IdToString(id), issuedAt, config), now, users, config) == Ok(View(users[id]))
  {
    ParseIdToString(id);
  }

  /** With the intended verifier, an access token whose expiry has passed is answered 401, whoever it names. */
  lemma ExpiredAccessTokenRejected(users: map<nat, User>, subject: string, issuedAt: int, now: int, config: Config)
    requires issuedAt + config.accessLifetime * SECONDS_PER_MINUTE < now
    ensures GetRequestUser(CreateAccessToken(subject, issuedAt, config), now, users, config) == Err(TokenExpired)
  {
  }

  /** A token signed with any key but SECRET_KEY (a refresh token among them) is answered 403,
      whatever its payload and expiry. */
  lemma ForeignTokenRejected(users: map<nat, User>, claims: Claims, key: string, algorithm: string, now: int, config: Config)
    requires key != config.secretKey
    ensures GetRequestUser(Encode(claims, key, algorithm), now, users, config) == Err(InvalidToken)
    ensures GetRequestUserAsWritten(Encode(claims, key, algorithm), now, users, config) == Err(InvalidToken)
  {
  }

  /** A refresh token is not accepted as an access token when the two secrets differ. */
  lemma RefreshTokenRejected(users: map<nat, User>, subject: string, issuedAt: int, now: int, config: Config)
    requires config.refreshSecretKey != config.secretKey
    ensures GetRequestUser(CreateRefreshToken(subject, issuedAt, config), now, users, config) == Err(InvalidToken)
  {
  }
}
