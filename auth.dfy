/** The authentication and session service: one-time codes sent by SMS
    (rate limited per phone and per client address), their single-use
    verification with find-or-create of the user, phone+password
    registration and login, OAuth identity linking, and rotating refresh
    tokens persisted for revocation.

    JWT signing and verification, argon2 verification and the SMS client
    are foreign code: the service receives them as functions fixed at
    construction; the salted argon2 hash, the random draw behind the code,
    the SMS outcome and the current time are parameters of the calls. */
module Auth {
  import opened Wrappers
  import opened Seqs
  import opened Text
  import opened Errors
  import opened Store

  const RATE_WINDOW: int := 10 * MINUTE
  const MAX_PER_PHONE: nat := 3
  const MAX_PER_IP: nat := 10
  const CODE_TTL: int := 5 * MINUTE

  const CODE_SENT: string := "Код отправлен"
  const LOGGED_OUT: string := "Выход выполнен успешно"
  const TOO_MANY_FOR_PHONE: string := "Слишком много попыток. Попробуйте позже."
  const TOO_MANY_FOR_IP: string := "Слишком много попыток с этого IP. Попробуйте позже."
  const INVALID_CODE: string := "Неверный или истекший код"
  const INVALID_REFRESH: string := "Refresh token недействителен"
  const PHONE_TAKEN: string := "Пользователь с таким номером уже существует"
  const BAD_CREDENTIALS: string := "Неверный телефон или пароль"
  const USER_NOT_FOUND: string := "Пользователь не найден"

  /** `authUserSelect`: what sign-in responses reveal about a user. */
  datatype AuthUserPayload = AuthUserPayload(
    id: Id, phone: Option<string>, email: Option<string>, isPremium: bool, role: UserRole, provider: AuthProvider)

  function PayloadOf(u: User): AuthUserPayload {
    AuthUserPayload(u.id, u.phone, u.email, u.isPremium, u.role, u.provider)
  }

  datatype TokenPair = TokenPair(accessToken: string, refreshToken: string)

  datatype AuthResponse = AuthResponse(accessToken: string, refreshToken: string, user: AuthUserPayload)

  // ---------------------------------------------------------------------
  // One-time codes
  // ---------------------------------------------------------------------

  /** `Math.floor(100000 + Math.random() * 900000).toString()`, where `draw`
      is `Math.floor(Math.random() * 900000)`. */
  function OtpCode(draw: nat): (code: string)
    requires draw < 900000
    ensures |code| == 6 && AllDigits(code)
    ensures ParseDecimal(code) == 100000 + draw
  {
    assert Pow10(5) == 100000 && Pow10(6) == 1000000;
    DecimalLength(100000 + draw, 6);
    DecimalRoundTrip(100000 + draw);
    Decimal(100000 + draw)
  }

  /** Codes issued to `phone` at or after `start`. */
  function PhoneCodesSince(codes: seq<PhoneCode>, phone: string, start: int): nat {
    Count(codes, (c: PhoneCode) => c.phone == phone && c.createdAt >= start)
  }

  /** Codes requested from address `ip` at or after `start`. */
  function IpCodesSince(codes: seq<PhoneCode>, ip: string, start: int): nat {
    Count(codes, (c: PhoneCode) => c.ip == Some(ip) && c.createdAt >= start)
  }

  /** `if (ip)`: an absent or empty address skips the per-address limit. */
  predicate IpGiven(ip: Option<string>) {
    ip.Some? && ip.value != ""
  }

  /** `checkRateLimit`: the throttling error, if any, for a new code request.
      The per-phone limit is checked first. */
  function RateLimitError(codes: seq<PhoneCode>, phone: string, ip: Option<string>, now: int): (r: Option<HttpError>)
    ensures r.None? <==>
              PhoneCodesSince(codes, phone, now - RATE_WINDOW) < MAX_PER_PHONE
              && (IpGiven(ip) ==> IpCodesSince(codes, ip.value, now - RATE_WINDOW) < MAX_PER_IP)
    ensures PhoneCodesSince(codes, phone, now - RATE_WINDOW) >= MAX_PER_PHONE ==>
              r == Some(TooManyRequests(TOO_MANY_FOR_PHONE))
    ensures PhoneCodesSince(codes, phone, now - RATE_WINDOW) < MAX_PER_PHONE && r.Some? ==>
              r == Some(TooManyRequests(TOO_MANY_FOR_IP))
    ensures r.Some? ==> r.value.StatusCode() == 429
  {
    var windowStart := now - RATE_WINDOW;
    if PhoneCodesSince(codes, phone, windowStart) >= MAX_PER_PHONE then Some(TooManyRequests(TOO_MANY_FOR_PHONE))
    else if IpGiven(ip) && IpCodesSince(codes, ip.value, windowStart) >= MAX_PER_IP then Some(TooManyRequests(TOO_MANY_FOR_IP))
    else None
  }

  /** The window slides: codes issued before it starts never count against
      the phone, however many there are. */
  lemma {:induction false} StaleCodesIgnored(stale: seq<PhoneCode>, recent: seq<PhoneCode>, phone: string, now: int)
    requires forall i :: 0 <= i < |stale| ==> stale[i].createdAt < now - RATE_WINDOW
    ensures PhoneCodesSince(stale + recent, phone, now - RATE_WINDOW) == PhoneCodesSince(recent, phone, now - RATE_WINDOW)
  {
    var p := (c: PhoneCode) => c.phone == phone && c.createdAt >= now - RATE_WINDOW;
    FilterAppend(stale, recent, p);
    FilterEmpty(stale, p);
  }

  /** Each issued code counts exactly once against its phone while it is in the window. */
  lemma {:induction false} IssuedCodeCounts(codes: seq<PhoneCode>, c: PhoneCode, start: int)
    requires c.createdAt >= start
    ensures PhoneCodesSince(codes + [c], c.phone, start) == PhoneCodesSince(codes, c.phone, start) + 1
  {
    var p := (x: PhoneCode) => x.phone == c.phone && x.createdAt >= start;
    FilterAppend(codes, [c], p);
    assert Filter([c], p) == [c];
  }

  /** Some stored code for `phone` equals `code` and has not expired (strictly later than `now`). */
  predicate HasValidCode(codes: seq<PhoneCode>, phone: string, code: string, now: int) {
    exists i :: 0 <= i < |codes| && codes[i].phone == phone && codes[i].code == code && codes[i].expiresAt > now
  }

  /** `deleteMany({ where: { phone, code } })`: every row with that pair, expired or not. */
  function WithoutCode(codes: seq<PhoneCode>, phone: string, code: string): (r: seq<PhoneCode>)
    ensures forall c :: c in r <==> c in codes && !(c.phone == phone && c.code == code)
    ensures forall i :: 0 <= i < |r| ==> !(r[i].phone == phone && r[i].code == code)
  {
    Filter(codes, (c: PhoneCode) => !(c.phone == phone && c.code == code))
  }

  /** Rows of other pairs survive the deletion, in their original order. */
  lemma {:induction false} WithoutCodeKeepsOthers(codes: seq<PhoneCode>, phone: string, code: string)
    requires forall i :: 0 <= i < |codes| ==> !(codes[i].phone == phone && codes[i].code == code)
    ensures WithoutCode(codes, phone, code) == codes
  {
    FilterKeepsAll(codes, (c: PhoneCode) => !(c.phone == phone && c.code == code));
  }

  // ---------------------------------------------------------------------
  // Refresh tokens
  // ---------------------------------------------------------------------

  /** The stored row a refresh presents: identical token string, owned by the
      token's subject, not yet expired. */
  function LiveToken(tokens: seq<RefreshToken>, token: string, userId: Id, now: int): Option<nat> {
    FindFirst(tokens, (t: RefreshToken) => t.token == token && t.userId == userId && t.expiresAt > now)
  }

  /** `deleteMany({ where: { userId } })`. */
  function TokensNotOwnedBy(tokens: seq<RefreshToken>, userId: Id): (r: seq<RefreshToken>)
    ensures forall t :: t in r <==> t in tokens && t.userId != userId
  {
    Filter(tokens, (t: RefreshToken) => t.userId != userId)
  }

  /** Logging out twice leaves what logging out once left. */
  lemma LogoutIdempotent(tokens: seq<RefreshToken>, userId: Id)
    ensures TokensNotOwnedBy(TokensNotOwnedBy(tokens, userId), userId) == TokensNotOwnedBy(tokens, userId)
  {
    FilterIdempotent(tokens, (t: RefreshToken) => t.userId != userId);
  }

  /** Logging out one user leaves another user's sessions exactly as they were. */
  lemma {:induction false} LogoutKeepsOtherSessions(tokens: seq<RefreshToken>, userId: Id, other: Id)
    requires other != userId
    ensures Filter(TokensNotOwnedBy(tokens, userId), (t: RefreshToken) => t.userId == other)
         == Filter(tokens, (t: RefreshToken) => t.userId == other)
  {
    if tokens != [] {
      LogoutKeepsOtherSessions(tokens[1..], userId, other);
    }
  }

  /** After rotation the presented token is gone: if it was stored once and
      the replacement differs from it, no live row carries it any more. */
  lemma RotatedTokenRejected(tokens: seq<RefreshToken>, i: nat, replacement: RefreshToken, userId: Id, now: int)
    requires i < |tokens|
    requires forall j :: 0 <= j < |tokens| && j != i ==> tokens[j].token != tokens[i].token
    requires replacement.token != tokens[i].token
    ensures LiveToken(RemoveAt(tokens, i) + [replacement], tokens[i].token, userId, now).None?
  {
    var rest := RemoveAt(tokens, i) + [replacement];
    forall j | 0 <= j < |rest| ensures rest[j].token != tokens[i].token {
      if j < i {
        assert rest[j] == tokens[j];
      } else if j < |tokens| - 1 {
        assert rest[j] == tokens[j + 1];
      }
    }
  }

  lemma RemoveAtAppend<T>(s: seq<T>, i: nat, x: T)
    requires i < |s|
    ensures RemoveAt(s + [x], i) == RemoveAt(s, i) + [x]
  {
    assert (s + [x])[..i] == s[..i];
    assert (s + [x])[i + 1..] == s[i + 1..] + [x];
  }

  // ---------------------------------------------------------------------
  // The service
  // ---------------------------------------------------------------------

  class AuthService {
    const db: Database
    /** `jwt.refreshExpiresIn` in days ("7d" by default). */
    const refreshDays: nat
    /** `jwtService.signAsync({sub}, {secret: jwt.secret})` at a given time. */
    const signAccess: (Id, int) -> string
    /** `jwtService.signAsync({sub}, {secret: jwt.refreshSecret})` at a given time. */
    const signRefresh: (Id, int) -> string
    /** `jwtService.verifyAsync(token, {secret: jwt.refreshSecret})`: the subject, or failure. */
    const verifyRefresh: (string, int) -> Option<Id>
    /** `argon2.verify(hash, password)`. */
    const passwordMatches: (string, string) -> bool

    constructor (db: Database, refreshDays: nat, signAccess: (Id, int) -> string, signRefresh: (Id, int) -> string,
                 verifyRefresh: (string, int) -> Option<Id>, passwordMatches: (string, string) -> bool)
      ensures this.db == db && this.refreshDays == refreshDays
      ensures this.signAccess == signAccess && this.signRefresh == signRefresh
      ensures this.verifyRefresh == verifyRefresh && this.passwordMatches == passwordMatches
    {
      this.db := db;
      this.refreshDays := refreshDays;
      this.signAccess := signAccess;
      this.signRefresh := signRefresh;
      this.verifyRefresh := verifyRefresh;
      this.passwordMatches := passwordMatches;
    }

    /** The row `generateTokens` stores for a new refresh token. */
    function RefreshRow(id: Id, userId: Id, now: int): RefreshToken {
      RefreshToken(id, signRefresh(userId, now), userId, now + refreshDays * DAY, now)
    }

    /** `generateTokens`: signs both tokens and stores the refresh token. */
    method GenerateTokens(userId: Id, now: int) returns (tokens: TokenPair)
      requires db.Valid()
      modifies db`refreshTokens, db`nextId
      ensures db.Valid()
      ensures tokens == TokenPair(signAccess(userId, now), signRefresh(userId, now))
      ensures db.nextId == old(db.nextId) + 1
      ensures db.refreshTokens == old(db.refreshTokens) + [RefreshRow(old(db.nextId), userId, now)]
    {
      tokens := TokenPair(signAccess(userId, now), signRefresh(userId, now));
      db.refreshTokens := db.refreshTokens + [RefreshRow(db.nextId, userId, now)];
      db.nextId := db.nextId + 1;
    }

    /** `buildAuthResponse`: the tokens are issued (and the refresh row stored)
        even when the user lookup running beside them fails. */
    method BuildAuthResponse(userId: Id, now: int) returns (r: Result<AuthResponse, Failure>)
      requires db.Valid()
      modifies db`refreshTokens, db`nextId
      ensures db.Valid()
      ensures db.nextId == old(db.nextId) + 1
      ensures db.refreshTokens == old(db.refreshTokens) + [RefreshRow(old(db.nextId), userId, now)]
      ensures UserById(db.users, userId).None? ==> r == Err(Http(Unauthorized(USER_NOT_FOUND)))
      ensures UserById(db.users, userId).Some? ==>
                r == Ok(AuthResponse(signAccess(userId, now), signRefresh(userId, now),
                                     PayloadOf(db.users[UserById(db.users, userId).value])))
    {
      var tokens := GenerateTokens(userId, now);
      var found := UserById(db.users, userId);
      if found.None? {
        r := Err(Http(Unauthorized(USER_NOT_FOUND)));
      } else {
        r := Ok(AuthResponse(tokens.accessToken, tokens.refreshToken, PayloadOf(db.users[found.value])));
      }
    }

    /** `sendPhoneCode`: a throttled request stores nothing; otherwise exactly
        one code row is appended, and it stays stored even if the SMS send fails. */
    method SendPhoneCode(phone: string, ip: Option<string>, now: int, draw: nat, delivered: bool)
      returns (r: Result<string, Failure>)
      requires db.Valid() && draw < 900000
      modifies db`phoneCodes, db`nextId
      ensures db.Valid()
      ensures RateLimitError(old(db.phoneCodes), phone, ip, now).Some? ==>
                && r == Err(Http(RateLimitError(old(db.phoneCodes), phone, ip, now).value))
                && db.phoneCodes == old(db.phoneCodes) && db.nextId == old(db.nextId)
      ensures RateLimitError(old(db.phoneCodes), phone, ip, now).None? ==>
                && db.phoneCodes == old(db.phoneCodes) + [PhoneCode(old(db.nextId), phone, OtpCode(draw), now + CODE_TTL, ip, now)]
                && db.nextId == old(db.nextId) + 1
                && r == (if delivered then Ok(CODE_SENT) else Err(SmsGateway))
    {
      var limited := RateLimitError(db.phoneCodes, phone, ip, now);
      if limited.Some? {
        return Err(Http(limited.value));
      }
      db.phoneCodes := db.phoneCodes + [PhoneCode(db.nextId, phone, OtpCode(draw), now + CODE_TTL, ip, now)];
      db.nextId := db.nextId + 1;
      r := if delivered then Ok(CODE_SENT) else Err(SmsGateway);
    }

    /** The find-or-create step of `verifyPhoneCode`: the phone's user, or a
        new LOCAL user holding only that phone. */
    method FindOrCreatePhoneUser(phone: string, now: int) returns (userId: Id)
      requires db.Valid()
      modifies db`users, db`nextId
      ensures db.Valid()
      ensures UserByPhone(old(db.users), phone).Some? ==>
                && db.users == old(db.users) && db.nextId == old(db.nextId)
                && userId == old(db.users)[UserByPhone(old(db.users), phone).value].id
      ensures UserByPhone(old(db.users), phone).None? ==>
                && db.users == old(db.users) + [NewUser(old(db.nextId), Some(phone), None, None, LOCAL, None, now)]
                && db.nextId == old(db.nextId) + 1 && userId == old(db.nextId)
      ensures UserByPhone(db.users, phone).Some? && UserByPhone(db.users, phone) == UserById(db.users, userId)
    {
      var existing := UserByPhone(db.users, phone);
      if existing.Some? {
        userId := db.users[existing.value].id;
        UserByIdAt(db.users, existing.value);
        return;
      }
      userId := db.nextId;
      var u := NewUser(userId, Some(phone), None, None, LOCAL, None, now);
      assert FreshUserKeys(db.users, -1, u);
      AppendUserUnique(db.users, u);
      db.users := db.users + [u];
      db.nextId := db.nextId + 1;
      UserByIdAt(db.users, |db.users| - 1);
    }

    /** `verifyPhoneCode`: without a live matching code nothing changes;
        otherwise the phone's user is found or created, every row with the
        (phone, code) pair is deleted, and a session is issued for that user. */
    method VerifyPhoneCode(phone: string, code: string, now: int) returns (r: Result<AuthResponse, Failure>)
      requires db.Valid()
      modifies db`users, db`phoneCodes, db`refreshTokens, db`nextId
      ensures db.Valid()
      ensures !HasValidCode(old(db.phoneCodes), phone, code, now) ==>
                && r == Err(Http(BadRequest(INVALID_CODE)))
                && db.users == old(db.users) && db.phoneCodes == old(db.phoneCodes)
                && db.refreshTokens == old(db.refreshTokens) && db.nextId == old(db.nextId)
      ensures HasValidCode(old(db.phoneCodes), phone, code, now) ==>
                && db.phoneCodes == WithoutCode(old(db.phoneCodes), phone, code)
                && (UserByPhone(old(db.users), phone).Some? ==> db.users == old(db.users) && db.nextId == old(db.nextId) + 1)
                && (UserByPhone(old(db.users), phone).None? ==>
                      && db.users == old(db.users) + [NewUser(old(db.nextId), Some(phone), None, None, LOCAL, None, now)]
                      && db.nextId == old(db.nextId) + 2)
                && UserByPhone(db.users, phone).Some?
      ensures HasValidCode(old(db.phoneCodes), phone, code, now) ==>
                var u := db.users[UserByPhone(db.users, phone).value];
                && r == Ok(AuthResponse(signAccess(u.id, now), signRefresh(u.id, now), PayloadOf(u)))
                && db.refreshTokens == old(db.refreshTokens) + [RefreshRow(db.nextId - 1, u.id, now)]
      ensures r.Ok? ==> forall later :: !HasValidCode(db.phoneCodes, phone, code, later)
    {
      if !HasValidCode(db.phoneCodes, phone, code, now) {
        return Err(Http(BadRequest(INVALID_CODE)));
      }
      var userId := FindOrCreatePhoneUser(phone, now);
      db.phoneCodes := WithoutCode(db.phoneCodes, phone, code);
      r := BuildAuthResponse(userId, now);
    }

    /** `refreshToken`: every failure is the same Unauthorized error and
        changes nothing; on success a new row is stored and the presented one
        deleted. */
    predicate RefreshAccepted(tokens: seq<RefreshToken>, token: string, now: int) {
      verifyRefresh(token, now).Some? && LiveToken(tokens, token, verifyRefresh(token, now).value, now).Some?
    }

    method Refresh(token: string, now: int) returns (r: Result<TokenPair, Failure>)
      requires db.Valid()
      modifies db`refreshTokens, db`nextId
      ensures db.Valid()
      ensures r.Ok? <==> RefreshAccepted(old(db.refreshTokens), token, now)
      ensures r.Err? ==>
                r == Err(Http(Unauthorized(INVALID_REFRESH)))
                && db.refreshTokens == old(db.refreshTokens) && db.nextId == old(db.nextId)
      ensures r.Ok? ==>
                var sub := verifyRefresh(token, now).value;
                var i := LiveToken(old(db.refreshTokens), token, sub, now).value;
                && r.value == TokenPair(signAccess(sub, now), signRefresh(sub, now))
                && db.refreshTokens == RemoveAt(old(db.refreshTokens), i) + [RefreshRow(old(db.nextId), sub, now)]
    {
      var payload := verifyRefresh(token, now);
      if payload.None? {
        return Err(Http(Unauthorized(INVALID_REFRESH)));
      }
      var sub := payload.value;
      var found := LiveToken(db.refreshTokens, token, sub, now);
      if found.None? {
        return Err(Http(Unauthorized(INVALID_REFRESH)));
      }
      ghost var before := db.refreshTokens;
      var tokens := GenerateTokens(sub, now);
      RemoveAtAppend(before, found.value, RefreshRow(old(db.nextId), sub, now));
      db.refreshTokens := RemoveAt(db.refreshTokens, found.value);
      r := Ok(tokens);
    }

    /** `logout`: every session of the user is revoked, no other. */
    method Logout(userId: Id) returns (message: string)
      requires db.Valid()
      modifies db`refreshTokens
      ensures db.Valid()
      ensures db.refreshTokens == TokensNotOwnedBy(old(db.refreshTokens), userId)
      ensures message == LOGGED_OUT
    {
      db.refreshTokens := TokensNotOwnedBy(db.refreshTokens, userId);
      message := LOGGED_OUT;
    }

    /** `registerWithPhoneAndPassword`; `passwordHash` is what `argon2.hash` produced. */
    method RegisterWithPhoneAndPassword(phone: string, passwordHash: string, now: int)
      returns (r: Result<AuthResponse, Failure>)
      requires db.Valid()
      modifies db`users, db`refreshTokens, db`nextId
      ensures db.Valid()
      ensures UserByPhone(old(db.users), phone).Some? ==>
                && r == Err(Http(BadRequest(PHONE_TAKEN)))
                && db.users == old(db.users) && db.refreshTokens == old(db.refreshTokens) && db.nextId == old(db.nextId)
      ensures UserByPhone(old(db.users), phone).None? ==>
                && db.users == old(db.users) + [NewUser(old(db.nextId), Some(phone), None, Some(passwordHash), LOCAL, None, now)]
                && r.Ok? && r.value.user.id == old(db.nextId) && r.value.user.phone == Some(phone)
                && r == Ok(AuthResponse(signAccess(old(db.nextId), now), signRefresh(old(db.nextId), now),
                                        PayloadOf(db.users[|old(db.users)|])))
                && db.refreshTokens == old(db.refreshTokens) + [RefreshRow(old(db.nextId) + 1, old(db.nextId), now)]
                && db.nextId == old(db.nextId) + 2
    {
      if UserByPhone(db.users, phone).Some? {
        return Err(Http(BadRequest(PHONE_TAKEN)));
      }
      var userId := db.nextId;
      db.users := db.users + [NewUser(userId, Some(phone), None, Some(passwordHash), LOCAL, None, now)];
      db.nextId := db.nextId + 1;
      UserByIdAt(db.users, |db.users| - 1);
      r := BuildAuthResponse(userId, now);
    }

    /** `validateLocalUser`: an unknown phone, a user without a password (no
        hash or an empty one) and a wrong password are one and the same
        Unauthorized error. */
    function ValidateLocalUser(phone: string, password: string): (r: Result<AuthUserPayload, Failure>)
      reads db
      ensures r.Err? <==>
                || UserByPhone(db.users, phone).None?
                || !HasPassword(db.users[UserByPhone(db.users, phone).value])
                || !passwordMatches(db.users[UserByPhone(db.users, phone).value].passwordHash.value, password)
      ensures r.Err? ==> r.error == Http(Unauthorized(BAD_CREDENTIALS))
      ensures r.Ok? ==> UserByPhone(db.users, phone).Some? && r.value == PayloadOf(db.users[UserByPhone(db.users, phone).value])
      ensures r.Ok? ==> exists i :: 0 <= i < |db.users| && db.users[i].phone == Some(phone) && r.value == PayloadOf(db.users[i])
    {
      match UserByPhone(db.users, phone)
      case None => Err(Http(Unauthorized(BAD_CREDENTIALS)))
      case Some(i) =>
        var user := db.users[i];
        if !HasPassword(user) || !passwordMatches(user.passwordHash.value, password) then
          Err(Http(Unauthorized(BAD_CREDENTIALS)))
        else
          Ok(PayloadOf(user))
    }

    /** Phone+password login: the local strategy's `validateLocalUser`, then
        `loginWithPhoneAndPassword`. A rejected login issues no token. */
    method LoginWithPhoneAndPassword(phone: string, password: string, now: int) returns (r: Result<AuthResponse, Failure>)
      requires db.Valid()
      modifies db`refreshTokens, db`nextId
      ensures db.Valid()
      ensures ValidateLocalUser(phone, password).Err? ==>
                r == Err(Http(Unauthorized(BAD_CREDENTIALS)))
                && db.refreshTokens == old(db.refreshTokens) && db.nextId == old(db.nextId)
      ensures ValidateLocalUser(phone, password).Ok? ==>
                r.Ok? && r.value.user == ValidateLocalUser(phone, password).value
                && r.value.accessToken == signAccess(r.value.user.id, now)
                && r.value.refreshToken == signRefresh(r.value.user.id, now)
                && db.refreshTokens == old(db.refreshTokens) + [RefreshRow(old(db.nextId), r.value.user.id, now)]
                && db.refreshTokens[|db.refreshTokens| - 1].token == r.value.refreshToken
                && db.nextId == old(db.nextId) + 1
    {
      var v := ValidateLocalUser(phone, password);
      if v.Err? {
        return Err(v.error);
      }
      r := BuildAuthResponse(v.value.id, now);
      UserByIdAt(db.users, UserByPhone(db.users, phone).value);
    }

    /** `handleOAuthLogin`, second branch: the user found by e-mail is
        re-linked to this provider. */
    method LinkIdentity(j: nat, provider: AuthProvider, providerId: string, now: int) returns (payload: AuthUserPayload)
      requires db.Valid() && j < |db.users| && UserByProvider(db.users, provider, providerId).None?
      modifies db`users
      ensures db.Valid()
      ensures db.users == old(db.users)[j := Linked(old(db.users)[j], provider, providerId, now)]
      ensures UserByProvider(db.users, provider, providerId) == Some(j) && payload == PayloadOf(db.users[j])
    {
      var v := Linked(db.users[j], provider, providerId, now);
      assert FreshUserKeys(db.users, j, v);
      ReplaceUserUnique(db.users, j, v);
      db.users := db.users[j := v];
      UserByProviderAt(db.users, j, provider, providerId);
      payload := PayloadOf(v);
    }

    /** `handleOAuthLogin`, last branch: a new user for the identity, failing
        on the e-mail unique constraint when that e-mail is taken. */
    method CreateOAuthUser(provider: AuthProvider, providerId: string, email: Option<string>, now: int)
      returns (r: Result<AuthUserPayload, Failure>)
      requires db.Valid() && UserByProvider(db.users, provider, providerId).None?
      modifies db`users, db`nextId
      ensures db.Valid()
      ensures email.Some? && UserByEmail(old(db.users), email.value).Some? ==>
                r == Err(Db(UniqueViolation("email"))) && db.users == old(db.users) && db.nextId == old(db.nextId)
      ensures !(email.Some? && UserByEmail(old(db.users), email.value).Some?) ==>
                && db.users == old(db.users) + [NewUser(old(db.nextId), None, email, None, provider, Some(providerId), now)]
                && db.nextId == old(db.nextId) + 1
                && UserByProvider(db.users, provider, providerId) == Some(|old(db.users)|)
                && r == Ok(PayloadOf(db.users[|old(db.users)|]))
    {
      if email.Some? && UserByEmail(db.users, email.value).Some? {
        return Err(Db(UniqueViolation("email")));
      }
      var u := NewUser(db.nextId, None, email, None, provider, Some(providerId), now);
      assert FreshUserKeys(db.users, -1, u);
      AppendUserUnique(db.users, u);
      db.users := db.users + [u];
      db.nextId := db.nextId + 1;
      UserByProviderAt(db.users, |db.users| - 1, provider, providerId);
      r := Ok(PayloadOf(u));
    }

    /** `handleOAuthLogin`: an already linked identity signs in unchanged; else
        a user with the given e-mail is re-linked to this provider; else one
        user is created. Whatever succeeds returns the one user holding the
        identity afterwards. */
    method HandleOAuthLogin(provider: AuthProvider, providerId: string, email: Option<string>, now: int)
      returns (r: Result<AuthUserPayload, Failure>)
      requires db.Valid()
      modifies db`users, db`nextId
      ensures db.Valid()
      ensures |old(db.users)| <= |db.users| <= |old(db.users)| + 1
      ensures UserByProvider(old(db.users), provider, providerId).Some? ==>
                && db.users == old(db.users) && db.nextId == old(db.nextId)
                && r == Ok(PayloadOf(old(db.users)[UserByProvider(old(db.users), provider, providerId).value]))
      ensures UserByProvider(old(db.users), provider, providerId).None? && EmailGiven(email)
              && UserByEmail(old(db.users), email.value).Some? ==>
                var j := UserByEmail(old(db.users), email.value).value;
                && db.users == old(db.users)[j := Linked(old(db.users)[j], provider, providerId, now)]
                && db.nextId == old(db.nextId)
                && r == Ok(PayloadOf(db.users[j]))
      ensures UserByProvider(old(db.users), provider, providerId).None?
              && !(EmailGiven(email) && UserByEmail(old(db.users), email.value).Some?) ==>
                if email.Some? && UserByEmail(old(db.users), email.value).Some? then
                  r == Err(Db(UniqueViolation("email"))) && db.users == old(db.users) && db.nextId == old(db.nextId)
                else
                  && db.users == old(db.users) + [NewUser(old(db.nextId), None, email, None, provider, Some(providerId), now)]
                  && db.nextId == old(db.nextId) + 1
                  && r == Ok(PayloadOf(db.users[|old(db.users)|]))
      ensures r.Ok? ==>
                UserByProvider(db.users, provider, providerId).Some?
                && r.value == PayloadOf(db.users[UserByProvider(db.users, provider, providerId).value])
    {
      var linked := UserByProvider(db.users, provider, providerId);
      if linked.Some? {
        return Ok(PayloadOf(db.users[linked.value]));
      }
      if EmailGiven(email) {
        var byEmail := UserByEmail(db.users, email.value);
        if byEmail.Some? {
          var payload := LinkIdentity(byEmail.value, provider, providerId, now);
          return Ok(payload);
        }
      }
      r := CreateOAuthUser(provider, providerId, email, now);
    }
  }

  /** `!user.passwordHash` is false: a hash is stored and is not the empty string. */
  predicate HasPassword(u: User) {
    u.passwordHash.Some? && u.passwordHash.value != ""
  }

  /** `if (profile.email)`: an absent or empty e-mail is not used for linking. */
  predicate EmailGiven(email: Option<string>) {
    email.Some? && email.value != ""
  }

  /** The update that links a user to an external identity. */
  function Linked(u: User, provider: AuthProvider, providerId: string, now: int): (v: User)
    ensures v.id == u.id && v.phone == u.phone && v.email == u.email && v.passwordHash == u.passwordHash
    ensures v.name == u.name && v.avatar == u.avatar && v.role == u.role && v.isPremium == u.isPremium
    ensures v.createdAt == u.createdAt && v.updatedAt == now
    ensures v.provider == provider && v.providerId == Some(providerId)
  {
    u.(provider := provider, providerId := Some(providerId), updatedAt := now)
  }
}
