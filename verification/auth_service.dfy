/** Credentials and sessions: registration, login with lockout, refresh-token rotation and logout. */
module Auth {
  import opened Common
  import opened Audit

  /** The random salt bcrypt draws for every hash it computes. */
  type Salt = nat

  /** Wrong passwords in a row that lock an account. */
  const MaxFailedAttempts: nat := 5

  /** How long a lock lasts, in milliseconds (15 minutes). */
  const LockDurationMs: int := 15 * 60 * 1000

  /** The JWT payload: `sub`, `role` and `verificationLevel`. */
  datatype Claims = Claims(sub: UserId, role: Role, verificationLevel: string)

  /**
   * The cryptographic libraries, left uninterpreted. `sign` receives the issue time in whole
   * seconds (the token's `iat`); which expiry a token gets is fixed by the secret it is signed with.
   */
  datatype Crypto = Crypto(
    hash: (string, Salt) -> string,                   // bcrypt.hash(secret, 12)
    matches: (string, string) -> bool,                // bcrypt.compare(secret, hash)
    sign: (Claims, string, int) -> string,            // jwt.signAsync(payload, { secret })
    verify: (string, string, int) -> Option<Claims>)  // jwt.verifyAsync(token, { secret }) at a time

  /** What the model assumes of bcrypt: a secret matches its own hashes and no other secret's. */
  ghost predicate Sound(c: Crypto) {
    && (forall s, salt :: c.matches(s, c.hash(s, salt)))
    && (forall s, s', salt :: c.matches(s, c.hash(s', salt)) ==> s == s')
    && (forall s, salt :: c.hash(s, salt) != "")
  }

  /** Configuration read once at start-up; the default verification level is the schema's. */
  datatype Config = Config(accessSecret: string, refreshSecret: string, defaultVerificationLevel: string)

  /** A user row; `password` holds the bcrypt hash, never the password. */
  datatype User = User(
    id: UserId,
    email: Option<string>,
    phone: Option<string>,
    password: string,
    role: Role,
    verificationLevel: string,
    failedLoginAttempts: nat,
    lockUntil: Option<int>,
    refreshTokenHash: Option<string>)

  /** The exceptions of the auth service, by message. */
  datatype AuthError =
    | UserExists                      // ConflictException "User already exists"
    | InvalidCredentials              // UnauthorizedException "Invalid credentials"
    | AccountLockedUntil(until: int)  // UnauthorizedException "Account locked until ..."
    | LockedForFailures               // UnauthorizedException "Account locked due to too many failed attempts"
    | RefreshDenied                   // UnauthorizedException "Access denied"
    | UserNotFound                    // the persistence layer's error when `logout` updates no row

  datatype TokenPair = TokenPair(accessToken: string, refreshToken: string)

  /** The `ip` and `user-agent` of the login request. */
  datatype ClientContext = ClientContext(ip: Option<string>, userAgent: Option<string>)

  predicate IdentifiedBy(u: User, identifier: string) {
    u.email == Some(identifier) || u.phone == Some(identifier)
  }

  /** The `OR: [{ email }, { phone }]` filter of `register`; an absent identifier matches no row. */
  predicate SharesIdentifier(u: User, email: Option<string>, phone: Option<string>) {
    (email.Some? && u.email == email) || (phone.Some? && u.phone == phone)
  }

  predicate IsLocked(u: User, now: int) {
    u.lockUntil.Some? && u.lockUntil.value > now
  }

  /** `user.refreshTokenHash` is truthy: present and not the empty string. */
  predicate HoldsRefreshHash(u: User) {
    u.refreshTokenHash.Some? && u.refreshTokenHash.value != ""
  }

  /** No two users share an email, and no two share a phone number. */
  ghost predicate IdentifiersUnique(users: map<UserId, User>) {
    forall a, b | a in users && b in users && a != b :: !SharesIdentifier(users[a], users[b].email, users[b].phone)
  }

  /** Login changes neither who the user is nor their credentials. */
  predicate SameAccount(u: User, v: User) {
    && v.id == u.id && v.email == u.email && v.phone == u.phone && v.password == u.password
    && v.role == u.role && v.verificationLevel == u.verificationLevel
  }

  function ClaimsOf(u: User): Claims {
    Claims(u.id, u.role, u.verificationLevel)
  }

  /** A JWT's `iat`: the issue time in whole seconds of a millisecond clock. */
  function IssuedAt(now: int): int {
    now / 1000
  }

  /** The access and refresh tokens minted for `u` at time `now`. */
  function IssueTokens(c: Crypto, cfg: Config, u: User, now: int): TokenPair {
    TokenPair(c.sign(ClaimsOf(u), cfg.accessSecret, IssuedAt(now)), c.sign(ClaimsOf(u), cfg.refreshSecret, IssuedAt(now)))
  }

  /** The row `register` creates. */
  function NewUser(id: UserId, email: Option<string>, phone: Option<string>, passwordHash: string,
                   role: Role, level: string): User
  {
    User(id, email, phone, passwordHash, role, level, 0, None, None)
  }

  /** What one login does to the user row it found, what it returns and what it audits. */
  datatype LoginStep = LoginStep(user: User, result: Result<TokenPair, AuthError>, entries: seq<AuditEntry>)

  /** The part of `login` after the user lookup. */
  function AttemptLogin(c: Crypto, cfg: Config, u: User, password: string, ctx: ClientContext,
                        now: int, salt: Salt): (s: LoginStep)
    ensures SameAccount(u, s.user)
    ensures u.failedLoginAttempts < MaxFailedAttempts ==> s.user.failedLoginAttempts < MaxFailedAttempts
    ensures |s.entries| <= 1 && (s.entries == [] <==> IsLocked(u, now))
    ensures s.result.Success? <==> !IsLocked(u, now) && c.matches(password, u.password)
    ensures s.result.Failure? ==> s.user.refreshTokenHash == u.refreshTokenHash
    ensures Sound(c) && s.result.Success? ==>
              s.user.refreshTokenHash.Some? && c.matches(s.result.value.refreshToken, s.user.refreshTokenHash.value)
  {
    if IsLocked(u, now) then
      LoginStep(u, Failure(AccountLockedUntil(u.lockUntil.value)), [])
    else if !c.matches(password, u.password) then
      var attempts := u.failedLoginAttempts + 1;
      if attempts >= MaxFailedAttempts then
        LoginStep(u.(failedLoginAttempts := 0, lockUntil := Some(now + LockDurationMs)),
                  Failure(LockedForFailures),
                  [Event(ACCOUNT_LOCKED, Some(u.id), Some("Too many failed attempts"), ctx.ip, ctx.userAgent)])
      else
        LoginStep(u.(failedLoginAttempts := attempts),
                  Failure(InvalidCredentials),
                  [Event(LOGIN_FAILED, Some(u.id), Some("Invalid password"), ctx.ip, ctx.userAgent)])
    else
      var tokens := IssueTokens(c, cfg, u, now);
      LoginStep(u.(failedLoginAttempts := 0, lockUntil := None, refreshTokenHash := Some(c.hash(tokens.refreshToken, salt))),
                Success(tokens),
                [Event(LOGIN_SUCCESS, Some(u.id), None, ctx.ip, ctx.userAgent)])
  }

  /** A locked account refuses the login before the password is looked at, and nothing is written. */
  lemma LockedLoginChangesNothing(c: Crypto, cfg: Config, u: User, password: string, ctx: ClientContext,
                                  now: int, salt: Salt)
    requires IsLocked(u, now)
    ensures AttemptLogin(c, cfg, u, password, ctx, now, salt)
            == LoginStep(u, Failure(AccountLockedUntil(u.lockUntil.value)), [])
  {
  }

  /** A wrong password that reaches the threshold resets the counter, locks for 15 minutes and audits the lock. */
  lemma ThresholdFailureLocks(c: Crypto, cfg: Config, u: User, password: string, ctx: ClientContext,
                              now: int, salt: Salt)
    requires !IsLocked(u, now) && !c.matches(password, u.password)
    requires u.failedLoginAttempts + 1 >= MaxFailedAttempts
    ensures var s := AttemptLogin(c, cfg, u, password, ctx, now, salt);
      && s.user == u.(failedLoginAttempts := 0, lockUntil := Some(now + LockDurationMs))
      && s.result == Failure(LockedForFailures)
      && s.entries == [Event(ACCOUNT_LOCKED, Some(u.id), Some("Too many failed attempts"), ctx.ip, ctx.userAgent)]
  {
  }

  /** A wrong password below the threshold stores the incremented counter and audits the failure. */
  lemma FailureBelowThresholdCounts(c: Crypto, cfg: Config, u: User, password: string, ctx: ClientContext,
                                    now: int, salt: Salt)
    requires !IsLocked(u, now) && !c.matches(password, u.password)
    requires u.failedLoginAttempts + 1 < MaxFailedAttempts
    ensures var s := AttemptLogin(c, cfg, u, password, ctx, now, salt);
      && s.user == u.(failedLoginAttempts := u.failedLoginAttempts + 1)
      && s.result == Failure(InvalidCredentials)
      && s.entries == [Event(LOGIN_FAILED, Some(u.id), Some("Invalid password"), ctx.ip, ctx.userAgent)]
  {
  }

  /** A correct password clears the counter and the lock and replaces the session with the new refresh token's. */
  lemma SuccessfulLoginResets(c: Crypto, cfg: Config, u: User, password: string, ctx: ClientContext,
                              now: int, salt: Salt)
    requires !IsLocked(u, now) && c.matches(password, u.password)
    ensures var s := AttemptLogin(c, cfg, u, password, ctx, now, salt);
      && s.result == Success(IssueTokens(c, cfg, u, now))
      && s.user == u.(failedLoginAttempts := 0, lockUntil := None,
                      refreshTokenHash := Some(c.hash(s.result.value.refreshToken, salt)))
      && s.entries == [Event(LOGIN_SUCCESS, Some(u.id), None, ctx.ip, ctx.userAgent)]
  {
  }

  /** A freshly registered user logs in exactly with the password given at registration. */
  lemma RegisteredPasswordLogsIn(c: Crypto, cfg: Config, id: UserId, email: Option<string>, phone: Option<string>,
                                 password: string, role: Role, regSalt: Salt, attempt: string,
                                 ctx: ClientContext, now: int, salt: Salt)
    requires Sound(c)
    ensures var u := NewUser(id, email, phone, c.hash(password, regSalt), role, cfg.defaultVerificationLevel);
      AttemptLogin(c, cfg, u, attempt, ctx, now, salt).result.Success? <==> attempt == password
  {
  }

  /** The same login repeated at each of the given times, each one seeing the row the previous one left. */
  function LoginSeries(c: Crypto, cfg: Config, u: User, password: string, ctx: ClientContext,
                       times: seq<int>, salt: Salt): (User, seq<AuditEntry>)
    decreases |times|
  {
    if times == [] then (u, [])
    else
      var s := AttemptLogin(c, cfg, u, password, ctx, times[0], salt);
      var rest := LoginSeries(c, cfg, s.user, password, ctx, times[1..], salt);
      (rest.0, s.entries + rest.1)
  }

  /** Wrong passwords that stay below the threshold only count up, one LOGIN_FAILED row each. */
  lemma {:induction false} FailuresAccumulate(c: Crypto, cfg: Config, u: User, password: string,
                                              ctx: ClientContext, times: seq<int>, salt: Salt)
    requires !c.matches(password, u.password)
    requires forall i | 0 <= i < |times| :: !IsLocked(u, times[i])
    requires u.failedLoginAttempts + |times| < MaxFailedAttempts
    ensures var (last, entries) := LoginSeries(c, cfg, u, password, ctx, times, salt);
      && last == u.(failedLoginAttempts := u.failedLoginAttempts + |times|)
      && |entries| == |times|
      && forall i | 0 <= i < |entries| :: entries[i] == Event(LOGIN_FAILED, Some(u.id), Some("Invalid password"), ctx.ip, ctx.userAgent)
    decreases |times|
  {
    if times != [] {
      var s := AttemptLogin(c, cfg, u, password, ctx, times[0], salt);
      FailureBelowThresholdCounts(c, cfg, u, password, ctx, times[0], salt);
      FailuresAccumulate(c, cfg, s.user, password, ctx, times[1..], salt);
    }
  }

  /**
   * From a clean counter, five wrong passwords in a row lock the account: four LOGIN_FAILED rows, then
   * exactly one ACCOUNT_LOCKED row, the counter back at 0 and the lock 15 minutes after the fifth attempt.
   * Until then every further attempt, right password or not, fails without touching the row.
   */
  lemma FiveFailuresLockAccount(c: Crypto, cfg: Config, u: User, password: string, ctx: ClientContext,
                                times: seq<int>, salt: Salt, later: int, nextPassword: string)
    requires u.failedLoginAttempts == 0 && !c.matches(password, u.password)
    requires |times| == MaxFailedAttempts
    requires forall i | 0 <= i < |times| :: !IsLocked(u, times[i])
    requires later < times[4] + LockDurationMs
    ensures var (last, entries) := LoginSeries(c, cfg, u, password, ctx, times, salt);
      && last == u.(failedLoginAttempts := 0, lockUntil := Some(times[4] + LockDurationMs))
      && |entries| == 5
      && (forall i | 0 <= i < 4 :: entries[i].action == LOGIN_FAILED)
      && entries[4] == Event(ACCOUNT_LOCKED, Some(u.id), Some("Too many failed attempts"), ctx.ip, ctx.userAgent)
      && AttemptLogin(c, cfg, last, nextPassword, ctx, later, salt)
         == LoginStep(last, Failure(AccountLockedUntil(times[4] + LockDurationMs)), [])
  {
    var first := LoginSeries(c, cfg, u, password, ctx, times[..4], salt);
    FailuresAccumulate(c, cfg, u, password, ctx, times[..4], salt);
    SeriesSplits(c, cfg, u, password, ctx, times, 4, salt);
    assert times[4..] == [times[4]];
    ThresholdFailureLocks(c, cfg, first.0, password, ctx, times[4], salt);
  }

  /** Running a series in two parts is running it at once. */
  lemma {:induction false} SeriesSplits(c: Crypto, cfg: Config, u: User, password: string, ctx: ClientContext,
                                        times: seq<int>, k: nat, salt: Salt)
    requires k <= |times|
    ensures var first := LoginSeries(c, cfg, u, password, ctx, times[..k], salt);
      var second := LoginSeries(c, cfg, first.0, password, ctx, times[k..], salt);
      LoginSeries(c, cfg, u, password, ctx, times, salt) == (second.0, first.1 + second.1)
    decreases k
  {
    if k > 0 {
      var s := AttemptLogin(c, cfg, u, password, ctx, times[0], salt);
      SeriesSplits(c, cfg, s.user, password, ctx, times[1..], k - 1, salt);
      assert times[..k][1..] == times[1..][..k - 1];
      assert times[k..] == times[1..][k - 1..];
      var first := LoginSeries(c, cfg, s.user, password, ctx, times[1..][..k - 1], salt);
      var second := LoginSeries(c, cfg, first.0, password, ctx, times[k..], salt);
      assert s.entries + (first.1 + second.1) == (s.entries + first.1) + second.1;
    } else {
      assert times[..0] == [] && times[0..] == times;
      var whole := LoginSeries(c, cfg, u, password, ctx, times, salt);
      assert [] + whole.1 == whole.1;
    }
  }

  /** The user whose session a refresh token continues, when every check of `refresh` passes. */
  function RefreshSubject(c: Crypto, refreshSecret: string, users: map<UserId, User>, token: string, now: int)
    : (r: Option<UserId>)
    ensures r.Some? <==>
              && c.verify(token, refreshSecret, now).Some?
              && c.verify(token, refreshSecret, now).value.sub in users
              && HoldsRefreshHash(users[c.verify(token, refreshSecret, now).value.sub])
              && c.matches(token, users[c.verify(token, refreshSecret, now).value.sub].refreshTokenHash.value)
    ensures r.Some? ==> r.value in users && r.value == c.verify(token, refreshSecret, now).value.sub
  {
    match c.verify(token, refreshSecret, now)
    case None => None
    case Some(payload) =>
      if payload.sub !in users || !HoldsRefreshHash(users[payload.sub]) then None
      else if !c.matches(token, users[payload.sub].refreshTokenHash.value) then None
      else Some(payload.sub)
  }

  /**
   * Once a user's stored hash is that of token `n`, a refresh naming that user is accepted for `n`
   * and for no other token: every earlier refresh token of the user is dead.
   */
  lemma OnlyLatestTokenRefreshes(c: Crypto, refreshSecret: string, users: map<UserId, User>, id: UserId,
                                 n: string, salt: Salt, token: string, now: int)
    requires Sound(c)
    requires id in users && users[id].refreshTokenHash == Some(c.hash(n, salt))
    requires c.verify(token, refreshSecret, now).Some? && c.verify(token, refreshSecret, now).value.sub == id
    ensures RefreshSubject(c, refreshSecret, users, token, now) == Some(id) <==> token == n
  {
  }

  /** A user without a stored hash (after logout) cannot refresh with any token. */
  lemma RevokedSessionCannotRefresh(c: Crypto, refreshSecret: string, users: map<UserId, User>, id: UserId,
                                    token: string, now: int)
    requires id in users && users[id].refreshTokenHash == None
    ensures RefreshSubject(c, refreshSecret, users, token, now) != Some(id)
  {
  }

  /**
   * Tokens carry their issue time in whole seconds and signing is deterministic, so a refresh in the
   * same second the presented token was issued mints that very token again, and it refreshes once more.
   */
  lemma SameSecondRefreshReissuesToken(c: Crypto, cfg: Config, users: map<UserId, User>, id: UserId,
                                       now: int, salt: Salt)
    requires Sound(c) && id in users
    requires var t := c.sign(ClaimsOf(users[id]), cfg.refreshSecret, IssuedAt(now));
      && c.verify(t, cfg.refreshSecret, now) == Some(ClaimsOf(users[id]))
      && RefreshSubject(c, cfg.refreshSecret, users, t, now) == Some(id)
    ensures var t := c.sign(ClaimsOf(users[id]), cfg.refreshSecret, IssuedAt(now));
      var rotated := users[id := users[id].(refreshTokenHash := Some(c.hash(IssueTokens(c, cfg, users[id], now).refreshToken, salt)))];
      && IssueTokens(c, cfg, users[id], now).refreshToken == t
      && RefreshSubject(c, cfg.refreshSecret, rotated, t, now) == Some(id)
  {
  }

  /** bcrypt reads at most this many bytes of the secret it hashes or compares. */
  const BcryptInputLimit: nat := 72

  /** The part of a secret that bcrypt reads (one character stands for one byte). */
  function BcryptInput(s: string): string {
    if |s| <= BcryptInputLimit then s else s[..BcryptInputLimit]
  }

  /**
   * bcrypt as the program calls it: hash and compare see only the first 72 bytes of the secret.
   * The salt is written into the hash and read back by the compare, so it plays no part here.
   */
  function TruncatingCrypto(sign: (Claims, string, int) -> string, verify: (string, string, int) -> Option<Claims>)
    : Crypto
  {
    Crypto((s: string, salt: Salt) => "$2b$" + BcryptInput(s),
           (s: string, h: string) => h == "$2b$" + BcryptInput(s),
           sign, verify)
  }

  /** Two secrets that agree on their first 72 bytes match each other's hashes, so `Sound` fails for bcrypt. */
  lemma TruncatingCompareIsNotSound(sign: (Claims, string, int) -> string,
                                    verify: (string, string, int) -> Option<Claims>)
    ensures !Sound(TruncatingCrypto(sign, verify))
  {
    var c := TruncatingCrypto(sign, verify);
    var a := seq(73, _ => 'a');
    var b := seq(72, _ => 'a') + ['b'];
    assert a[..72] == b[..72];
    assert a[72] != b[72];
    assert c.matches(a, c.hash(b, 0));
  }

  /**
   * The program as written: refresh tokens of one user begin with the same 72 bytes (the JWT header and
   * the start of a payload whose first claim is `sub`), so a superseded token passes the compare against
   * the hash of its successor and is accepted.
   */
  lemma TruncatedCompareAcceptsSupersededToken(sign: (Claims, string, int) -> string,
                                               verify: (string, string, int) -> Option<Claims>,
                                               refreshSecret: string, users: map<UserId, User>, id: UserId,
                                               n: string, salt: Salt, token: string, now: int)
    requires id in users && users[id].refreshTokenHash == Some(TruncatingCrypto(sign, verify).hash(n, salt))
    requires verify(token, refreshSecret, now).Some? && verify(token, refreshSecret, now).value.sub == id
    requires |n| >= BcryptInputLimit && |token| >= BcryptInputLimit
    requires token[..BcryptInputLimit] == n[..BcryptInputLimit] && token != n
    ensures RefreshSubject(TruncatingCrypto(sign, verify), refreshSecret, users, token, now) == Some(id)
  {
  }

  /**
   * A compare that reads the whole secret (as when the token is digested before bcrypt sees it).
   * The salt again lives inside the hash.
   */
  function FullLengthCrypto(sign: (Claims, string, int) -> string, verify: (string, string, int) -> Option<Claims>)
    : Crypto
  {
    Crypto((s: string, salt: Salt) => "$2b$" + s,
           (s: string, h: string) => h == "$2b$" + s,
           sign, verify)
  }

  lemma FullLengthCryptoIsSound(sign: (Claims, string, int) -> string,
                                verify: (string, string, int) -> Option<Claims>)
    ensures Sound(FullLengthCrypto(sign, verify))
  {
    var c := FullLengthCrypto(sign, verify);
    forall s, s', salt | c.matches(s, c.hash(s', salt))
      ensures s == s'
    {
      assert ("$2b$" + s)[4..] == s;
      assert ("$2b$" + s')[4..] == s';
    }
  }

  /** With a whole-token compare, rotation does what it is for: only the latest refresh token is accepted. */
  lemma FullLengthCompareRejectsSupersededToken(sign: (Claims, string, int) -> string,
                                                verify: (string, string, int) -> Option<Claims>,
                                                refreshSecret: string, users: map<UserId, User>, id: UserId,
                                                n: string, salt: Salt, token: string, now: int)
    requires id in users && users[id].refreshTokenHash == Some(FullLengthCrypto(sign, verify).hash(n, salt))
    requires verify(token, refreshSecret, now).Some? && verify(token, refreshSecret, now).value.sub == id
    ensures RefreshSubject(FullLengthCrypto(sign, verify), refreshSecret, users, token, now) == Some(id) <==> token == n
  {
    FullLengthCryptoIsSound(sign, verify);
    OnlyLatestTokenRefreshes(FullLengthCrypto(sign, verify), refreshSecret, users, id, n, salt, token, now);
  }

  /** Registering next to users with unique identifiers keeps them unique when the conflict check passed. */
  lemma {:induction false} InsertKeepsIdentifiersUnique(users: map<UserId, User>, u: User)
    requires IdentifiersUnique(users) && u.id !in users
    requires forall id | id in users :: !SharesIdentifier(users[id], u.email, u.phone)
    ensures IdentifiersUnique(users[u.id := u])
  {
    var m := users[u.id := u];
    forall a, b | a in m && b in m && a != b
      ensures !SharesIdentifier(m[a], m[b].email, m[b].phone)
    {
      if a == u.id {
        assert !SharesIdentifier(users[b], u.email, u.phone);
      } else if b != u.id {
        assert m[a] == users[a] && m[b] == users[b];
      }
    }
  }

  /** The user table and the audit table, with the collaborators the service was built with. */
  class AuthService {
    const crypto: Crypto
    const config: Config
    var users: map<UserId, User>
    var nextId: UserId
    var audit: seq<AuditEntry>

    ghost predicate Valid()
      reads this
    {
      && Sound(crypto)
      && (forall id | id in users ::
            users[id].id == id && id < nextId && users[id].failedLoginAttempts < MaxFailedAttempts)
      && IdentifiersUnique(users)
    }

    constructor (c: Crypto, cfg: Config)
      requires Sound(c)
      ensures Valid() && crypto == c && config == cfg
      ensures users == map[] && nextId == 0 && audit == []
    {
      crypto, config := c, cfg;
      users, nextId, audit := map[], 0, [];
    }

    /** `logEvent`: append one row to the audit table. */
    method LogEvent(action: AuditAction, userId: Option<UserId>, metadata: Option<string>,
                    ipAddress: Option<string>, userAgent: Option<string>)
      requires Valid()
      modifies this`audit
      ensures Valid()
      ensures audit == old(audit) + [Event(action, userId, metadata, ipAddress, userAgent)]
    {
      audit := audit + [Event(action, userId, metadata, ipAddress, userAgent)];
    }

    /** `register`: refuse a taken email or phone, otherwise store a new user with the password's hash. */
    method Register(email: Option<string>, phone: Option<string>, password: string, role: Role, salt: Salt)
      returns (r: Result<(), AuthError>)
      requires Valid()
      modifies this`users, this`nextId
      ensures Valid() && audit == old(audit)
      ensures r.Failure? <==> exists id | id in old(users) :: SharesIdentifier(old(users)[id], email, phone)
      ensures r.Failure? ==> r == Failure(UserExists) && users == old(users) && nextId == old(nextId)
      ensures r.Success? ==>
                && old(nextId) !in old(users) && nextId == old(nextId) + 1
                && users == old(users)[old(nextId) := NewUser(old(nextId), email, phone, crypto.hash(password, salt),
                                                              role, config.defaultVerificationLevel)]
    {
      if exists id | id in users :: SharesIdentifier(users[id], email, phone) {
        return Failure(UserExists);
      }
      var hashedPassword := crypto.hash(password, salt);
      var user := NewUser(nextId, email, phone, hashedPassword, role, config.defaultVerificationLevel);
      InsertKeepsIdentifiersUnique(users, user);
      users := users[nextId := user];
      nextId := nextId + 1;
      r := Success(());
    }

    /**
     * `login`: find a user by email or phone, refuse a locked account, count a wrong password
     * (locking at the threshold), or reset the counter and open a new session.
     * Which user is found when several match is not fixed; `chosen` names the one that was.
     */
    method Login(identifier: string, password: string, ctx: ClientContext, now: int, salt: Salt)
      returns (r: Result<TokenPair, AuthError>, ghost chosen: Option<UserId>)
      requires Valid()
      modifies this`users, this`audit
      ensures Valid() && nextId == old(nextId)
      ensures chosen.None? <==> forall id | id in old(users) :: !IdentifiedBy(old(users)[id], identifier)
      ensures chosen.None? ==> r == Failure(InvalidCredentials) && users == old(users) && audit == old(audit)
      ensures chosen.Some? ==>
                && chosen.value in old(users) && IdentifiedBy(old(users)[chosen.value], identifier)
                && var s := AttemptLogin(crypto, config, old(users)[chosen.value], password, ctx, now, salt);
                   users == old(users)[chosen.value := s.user] && audit == old(audit) + s.entries && r == s.result
    {
      if !exists id | id in users :: IdentifiedBy(users[id], identifier) {
        return Failure(InvalidCredentials), None;
      }
      var id :| id in users && IdentifiedBy(users[id], identifier);
      chosen := Some(id);
      var user := users[id];

      if IsLocked(user, now) {
        return Failure(AccountLockedUntil(user.lockUntil.value)), chosen;
      }

      var passwordValid := crypto.matches(password, user.password);
      if !passwordValid {
        var attempts := user.failedLoginAttempts + 1;
        if attempts >= MaxFailedAttempts {
          users := users[id := user.(failedLoginAttempts := 0, lockUntil := Some(now + LockDurationMs))];
          LogEvent(ACCOUNT_LOCKED, Some(id), Some("Too many failed attempts"), ctx.ip, ctx.userAgent);
          return Failure(LockedForFailures), chosen;
        }
        users := users[id := user.(failedLoginAttempts := attempts)];
        LogEvent(LOGIN_FAILED, Some(id), Some("Invalid password"), ctx.ip, ctx.userAgent);
        return Failure(InvalidCredentials), chosen;
      }

      LogEvent(LOGIN_SUCCESS, Some(id), None, ctx.ip, ctx.userAgent);
      users := users[id := user.(failedLoginAttempts := 0, lockUntil := None)];
      var tokens := IssueTokens(crypto, config, user, now);
      var hashedRefreshToken := crypto.hash(tokens.refreshToken, salt);
      users := users[id := users[id].(refreshTokenHash := Some(hashedRefreshToken))];
      r := Success(tokens);
    }

    /**
     * `refresh`: verify the token, find its user, require the stored hash to match, then mint a new
     * pair and store the new refresh token's hash. Every failure is the same "Access denied".
     */
    method Refresh(refreshToken: string, now: int, salt: Salt) returns (r: Result<TokenPair, AuthError>)
      requires Valid()
      modifies this`users, this`audit
      ensures Valid() && nextId == old(nextId)
      ensures var subject := RefreshSubject(crypto, config.refreshSecret, old(users), refreshToken, now);
        && (subject.None? ==> r == Failure(RefreshDenied) && users == old(users) && audit == old(audit))
        && (subject.Some? ==>
              var u := old(users)[subject.value];
              && r == Success(IssueTokens(crypto, config, u, now))
              && users == old(users)[u.id := u.(refreshTokenHash := Some(crypto.hash(r.value.refreshToken, salt)))]
              && audit == old(audit) + [Event(TOKEN_REFRESH, Some(u.id), None, None, None)])
    {
      var payload := crypto.verify(refreshToken, config.refreshSecret, now);
      if payload.None? {
        return Failure(RefreshDenied);
      }
      var sub := payload.value.sub;
      if sub !in users || !HoldsRefreshHash(users[sub]) {
        return Failure(RefreshDenied);
      }
      var user := users[sub];
      var refreshTokenMatches := crypto.matches(refreshToken, user.refreshTokenHash.value);
      if !refreshTokenMatches {
        return Failure(RefreshDenied);
      }

      var tokens := IssueTokens(crypto, config, user, now);
      LogEvent(TOKEN_REFRESH, Some(user.id), None, None, None);
      var newHashedRefreshToken := crypto.hash(tokens.refreshToken, salt);
      users := users[user.id := user.(refreshTokenHash := Some(newHashedRefreshToken))];
      r := Success(tokens);
    }

    /** `logout`: drop the stored refresh-token hash and audit it; repeating it still succeeds. */
    method Logout(userId: UserId) returns (r: Result<(), AuthError>)
      requires Valid()
      modifies this`users, this`audit
      ensures Valid() && nextId == old(nextId)
      ensures userId in old(users) ==>
                && r == Success(())
                && users == old(users)[userId := old(users)[userId].(refreshTokenHash := None)]
                && audit == old(audit) + [Event(LOGOUT, Some(userId), None, None, None)]
      ensures userId !in old(users) ==> r == Failure(UserNotFound) && users == old(users) && audit == old(audit)
    {
      if userId !in users {
        return Failure(UserNotFound);
      }
      users := users[userId := users[userId].(refreshTokenHash := None)];
      LogEvent(LOGOUT, Some(userId), None, None, None);
      r := Success(());
    }
  }

  /**
   * A session driven through the service: register, log in, rotate once, replay the superseded token,
   * log out twice and try the current token. The issue times of the two refreshes fall in different seconds.
   */
  method SessionLifecycle(c: Crypto, cfg: Config, email: string, password: string, role: Role,
                          ctx: ClientContext, now: int, later: int)
    returns (replayed: Result<TokenPair, AuthError>, afterLogout: Result<TokenPair, AuthError>,
             secondLogout: Result<(), AuthError>)
    requires Sound(c)
    requires var claims := Claims(0, role, cfg.defaultVerificationLevel);
      && c.verify(c.sign(claims, cfg.refreshSecret, IssuedAt(now)), cfg.refreshSecret, later) == Some(claims)
      && c.sign(claims, cfg.refreshSecret, IssuedAt(now)) != c.sign(claims, cfg.refreshSecret, IssuedAt(later))
    ensures replayed == Failure(RefreshDenied)
    ensures afterLogout == Failure(RefreshDenied)
    ensures secondLogout == Success(())
  {
    var service := new AuthService(c, cfg);
    var registered := service.Register(Some(email), None, password, role, 0);
    assert registered.Success?;
    ghost var u := service.users[0];
    assert IdentifiedBy(u, email);

    var login, chosen := service.Login(email, password, ctx, now, 1);
    assert chosen == Some(0);
    assert login.Success?;
    var first := login.value.refreshToken;

    assert RefreshSubject(c, cfg.refreshSecret, service.users, first, later) == Some(0);
    var rotated := service.Refresh(first, later, 2);
    assert rotated.Success?;
    var second := rotated.value.refreshToken;

    replayed := service.Refresh(first, later, 3);
    var loggedOut := service.Logout(0);
    secondLogout := service.Logout(0);
    afterLogout := service.Refresh(second, later, 4);
  }
}
