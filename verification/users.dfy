/**
 * The user service: registration with an emailed one-time code, email
 * verification and its rate-limited resend, login, and the forgotten- and
 * changed-password flows. One-time codes, the resend window and reset links
 * live in redis; accounts live in the user collection.
 */
module UserService {

  import opened Common
  import opened Models
  import opened Store
  import opened Strings
  import opened Config
  import opened PasswordHasher

  /** The user collection and the redis entries the service uses. */
  datatype Accounts = Accounts(users: seq<User>, kv: map<string, string>)

  function VerifyKey(userId: Id): string { "verify-email:" + userId }
  function ResendKey(userId: Id): string { "resend-vmail-" + userId }
  function ResetKey(hash: string): string { "reset-password:" + hash }

  /** Every redis entry the service writes expires after an hour; expiry is not modelled. */
  const OneHour: nat := 3600

  /** A redis value that is present and not the empty string. */
  predicate Holds(kv: map<string, string>, key: string)
  {
    key in kv && kv[key] != ""
  }

  predicate UniqueEmails(users: seq<User>)
  {
    forall i, j :: 0 <= i < j < |users| ==> users[i].email != users[j].email
  }

  predicate UniqueIds(users: seq<User>)
  {
    forall i, j :: 0 <= i < j < |users| ==> users[i].id != users[j].id
  }

  /** The schema stores emails lower-cased. */
  predicate LowerEmails(users: seq<User>)
  {
    forall i :: 0 <= i < |users| ==> Lower(users[i].email) == users[i].email
  }

  lemma LowerTwice(s: string)
    ensures Lower(Lower(s)) == Lower(s)
  {
    assert forall i :: 0 <= i < |s| ==> LowerChar(LowerChar(s[i])) == LowerChar(s[i]);
  }

  // ---------------------------------------------------------------------
  // Registration and email verification

  datatype RegisterDto = RegisterDto(name: string, email: string, password: string)

  datatype Registered = Registered(message: string, user: Id, verificationRequired: bool)

  const UserExists: HttpError := BadRequest("User already exists with same email")
  const InvalidOtp: HttpError := BadRequest("Invalid or expired verification otp")

  /** The schema's `required` validators reject an empty name or email. */
  const UserValidationFailed: AppError := Plain("User validation failed")

  /**
   * `register`: `freshId` is the new document's id, `salt` the hasher's random
   * salt and `otp` the number drawn from 100000..999999.
   */
  function RegisterStep(a: Accounts, h: Hasher, dto: RegisterDto, freshId: Id, salt: string, otp: nat)
    : (r: (Result<Registered, AppError>, Accounts))
    requires UserIndexById(a.users, freshId).None? && 100000 <= otp <= 999999
    ensures r.0.Failure? ==> r.1 == a
    ensures r.0 == Failure(Http(UserExists)) <==> UserIndexByEmail(a.users, Lower(dto.email)).Some?
    ensures r.0.Success? <==>
      UserIndexByEmail(a.users, Lower(dto.email)).None? && dto.name != "" && dto.email != ""
    ensures r.0.Success? ==>
      && r.0.value == Registered("Account created successfully", freshId, true)
      && r.1.users == a.users + [User(freshId, dto.name, Lower(dto.email), false, Hash(h, dto.password, salt), 1)]
      && r.1.kv == a.kv[VerifyKey(freshId) := DecimalString(otp)]
      && |r.1.kv[VerifyKey(freshId)]| == 6
  {
    var email := Lower(dto.email);
    if UserIndexByEmail(a.users, email).Some? then (Failure(Http(UserExists)), a)
    else if dto.name == "" || email == "" then (Failure(UserValidationFailed), a)
    else
      SixDigits(otp);
      var user := User(freshId, dto.name, email, false, Hash(h, dto.password, salt), 1);
      (Success(Registered("Account created successfully", freshId, true)),
       Accounts(a.users + [user], a.kv[VerifyKey(freshId) := DecimalString(otp)]))
  }

  /** `verifyEmail`: the code is deleted once it has matched, even when the user is then missing. */
  function VerifyEmailStep(a: Accounts, userId: Id, otp: string): (r: (Result<string, HttpError>, Accounts))
    ensures r.0 == Failure(InvalidOtp) <==> !Holds(a.kv, VerifyKey(userId)) || a.kv[VerifyKey(userId)] != otp
    ensures r.0 == Failure(InvalidOtp) ==> r.1 == a
    ensures r.0 != Failure(InvalidOtp) ==> r.1.kv == a.kv - {VerifyKey(userId)}
    ensures r.0 == Failure(NotFound("User not found")) <==>
      Holds(a.kv, VerifyKey(userId)) && a.kv[VerifyKey(userId)] == otp && UserIndexById(a.users, userId).None?
    ensures r.0 == Failure(NotFound("User not found")) ==> r.1.users == a.users
    ensures r.0.Success? <==>
      Holds(a.kv, VerifyKey(userId)) && a.kv[VerifyKey(userId)] == otp && UserIndexById(a.users, userId).Some?
    ensures r.0.Success? ==>
      && r.0.value == "Email verified"
      && var i := UserIndexById(a.users, userId).value;
         r.1.users == a.users[i := a.users[i].(emailVerified := true)]
  {
    var key := VerifyKey(userId);
    if !Holds(a.kv, key) || a.kv[key] != otp then (Failure(InvalidOtp), a)
    else
      var kv := a.kv - {key};
      var i := UserIndexById(a.users, userId);
      if i.None? then (Failure(NotFound("User not found")), a.(kv := kv))
      else (Success("Email verified"), Accounts(a.users[i.value := a.users[i.value].(emailVerified := true)], kv))
  }

  datatype ResendResult = ResendResult(email: string, name: string)

  const ResendLimit: nat := 3

  /**
   * `Number(resendWindow)` after a missing or empty window was replaced by
   * "0": None stands for NaN.
   */
  function WindowCount(kv: map<string, string>, userId: Id): Option<nat>
  {
    ParseDecimal(if Holds(kv, ResendKey(userId)) then kv[ResendKey(userId)] else "0")
  }

  /**
   * `resendVerifyEmail`: at most three codes per window; a window holding a
   * non-number is never full and is overwritten with "NaN".
   */
  function ResendStep(a: Accounts, userId: Id, otp: nat): (r: (Result<ResendResult, HttpError>, Accounts))
    requires 100000 <= otp <= 999999
    ensures r.0.Failure? ==> r.1 == a
    ensures r.0 == Failure(BadRequest("User not found")) <==> UserIndexById(a.users, userId).None?
    ensures r.0 == Failure(BadRequest("Email already verified.")) <==>
      UserIndexById(a.users, userId).Some? && a.users[UserIndexById(a.users, userId).value].emailVerified
    ensures r.0 == Failure(BadRequest("Exceeded resend limit")) <==>
      && UserIndexById(a.users, userId).Some?
      && !a.users[UserIndexById(a.users, userId).value].emailVerified
      && WindowCount(a.kv, userId).Some? && WindowCount(a.kv, userId).value >= ResendLimit
    ensures r.0.Success? <==>
      && UserIndexById(a.users, userId).Some?
      && !a.users[UserIndexById(a.users, userId).value].emailVerified
      && (WindowCount(a.kv, userId).None? || WindowCount(a.kv, userId).value < ResendLimit)
    ensures r.0.Success? ==>
      && r.1.users == a.users
      && r.1.kv == a.kv[ResendKey(userId) := if WindowCount(a.kv, userId).Some?
                                             then DecimalString(WindowCount(a.kv, userId).value + 1) else "NaN"]
                       [VerifyKey(userId) := DecimalString(otp)]
  {
    var i := UserIndexById(a.users, userId);
    if i.None? then (Failure(BadRequest("User not found")), a)
    else if a.users[i.value].emailVerified then (Failure(BadRequest("Email already verified.")), a)
    else
      var count := WindowCount(a.kv, userId);
      if count.Some? && count.value >= ResendLimit then (Failure(BadRequest("Exceeded resend limit")), a)
      else
        var window := if count.Some? then DecimalString(count.value + 1) else "NaN";
        (Success(ResendResult(a.users[i.value].email, a.users[i.value].name)),
         a.(kv := a.kv[ResendKey(userId) := window][VerifyKey(userId) := DecimalString(otp)]))
  }

  // ---------------------------------------------------------------------
  // Login and passwords

  datatype LoginDto = LoginDto(email: string, password: string)

  /** The login response; the access and refresh tokens are not modelled. */
  datatype LoggedIn = LoggedIn(message: string, name: string, email: string)

  const InvalidCredentials: HttpError := BadRequest("Invalid credentials")

  /** A throw inside the hasher's comparison; a plain error. */
  const CompareFailed: AppError := Plain("hash comparison failed")

  /** `login`: one message for an unknown email and for a wrong password. */
  function LoginOutcome(users: seq<User>, h: Hasher, env: Env, dto: LoginDto): (r: Result<LoggedIn, AppError>)
    ensures UserIndexByEmail(users, Lower(dto.email)).None? ==> r == Failure(Http(InvalidCredentials))
    ensures (UserIndexByEmail(users, Lower(dto.email)).Some? &&
             Compare(h, dto.password, users[UserIndexByEmail(users, Lower(dto.email)).value].password) == Some(false))
      ==> r == Failure(Http(InvalidCredentials))
    ensures r.Success? <==>
      && UserIndexByEmail(users, Lower(dto.email)).Some?
      && Compare(h, dto.password, users[UserIndexByEmail(users, Lower(dto.email)).value].password) == Some(true)
      && GetRequired(env, JwtSecret).Success? && GetRequired(env, JwtRefreshSecret).Success?
    ensures r.Success? ==>
      var user := users[UserIndexByEmail(users, Lower(dto.email)).value];
      r.value == LoggedIn("Login successful", user.name, user.email)
  {
    var i := UserIndexByEmail(users, Lower(dto.email));
    if i.None? then Failure(Http(InvalidCredentials))
    else
      var user := users[i.value];
      var matches := Compare(h, dto.password, user.password);
      if matches.None? then Failure(CompareFailed)
      else if !matches.value then Failure(Http(InvalidCredentials))
      else if GetRequired(env, JwtSecret).Failure? then Failure(AsAppError(GetRequired(env, JwtSecret).error))
      else if GetRequired(env, JwtRefreshSecret).Failure? then Failure(AsAppError(GetRequired(env, JwtRefreshSecret).error))
      else Success(LoggedIn("Login successful", user.name, user.email))
  }

  const ResetRequested: string := "You will receive a password reset email if we find an account with this email"

  /** `forgotPassword`: `hash` is the generated link id; the answer does not reveal whether the account exists. */
  function ForgotPasswordStep(a: Accounts, email: string, hash: string): (r: (string, Accounts))
    ensures r.0 == ResetRequested && r.1.users == a.users
    ensures UserIndexByEmail(a.users, Lower(email)).None? ==> r.1 == a
    ensures UserIndexByEmail(a.users, Lower(email)).Some? ==>
      r.1.kv == a.kv[ResetKey(hash) := a.users[UserIndexByEmail(a.users, Lower(email)).value].id]
  {
    var i := UserIndexByEmail(a.users, Lower(email));
    if i.None? then (ResetRequested, a)
    else (ResetRequested, a.(kv := a.kv[ResetKey(hash) := a.users[i.value].id]))
  }

  datatype ResetPasswordDto = ResetPasswordDto(password: string, hash: string)

  const InvalidLink: string := "Invalid or expired link"

  /** `resetPassword`: the link is deleted once read, even when its user is then missing. */
  function ResetPasswordStep(a: Accounts, h: Hasher, dto: ResetPasswordDto, salt: string)
    : (r: (Result<string, HttpError>, Accounts))
    ensures r.0 == Failure(BadRequest(InvalidLink)) <==> !Holds(a.kv, ResetKey(dto.hash))
    ensures r.0 == Failure(BadRequest(InvalidLink)) ==> r.1 == a
    ensures Holds(a.kv, ResetKey(dto.hash)) ==> r.1.kv == a.kv - {ResetKey(dto.hash)}
    ensures r.0 == Failure(NotFound(InvalidLink)) <==>
      Holds(a.kv, ResetKey(dto.hash)) && UserIndexById(a.users, a.kv[ResetKey(dto.hash)]).None?
    ensures r.0 == Failure(NotFound(InvalidLink)) ==> r.1.users == a.users
    ensures r.0.Success? <==>
      Holds(a.kv, ResetKey(dto.hash)) && UserIndexById(a.users, a.kv[ResetKey(dto.hash)]).Some?
    ensures r.0.Success? ==>
      && r.0.value == "Password reset successful"
      && var i := UserIndexById(a.users, a.kv[ResetKey(dto.hash)]).value;
         r.1.users == a.users[i := a.users[i].(password := Hash(h, dto.password, salt))]
  {
    var key := ResetKey(dto.hash);
    if !Holds(a.kv, key) then (Failure(BadRequest(InvalidLink)), a)
    else
      var kv := a.kv - {key};
      var i := UserIndexById(a.users, a.kv[key]);
      if i.None? then (Failure(NotFound(InvalidLink)), a.(kv := kv))
      else
        (Success("Password reset successful"),
         Accounts(a.users[i.value := a.users[i.value].(password := Hash(h, dto.password, salt))], kv))
  }

  datatype ChangePasswordDto = ChangePasswordDto(oldPassword: string, newPassword: string)

  /** `changePassword`: the old password must match the stored hash. */
  function ChangePasswordStep(users: seq<User>, h: Hasher, userId: Id, dto: ChangePasswordDto, salt: string)
    : (r: (Result<string, AppError>, seq<User>))
    ensures r.0.Failure? ==> r.1 == users
    ensures r.0 == Failure(Http(NotFound("User not found"))) <==> UserIndexById(users, userId).None?
    ensures r.0.Success? <==>
      UserIndexById(users, userId).Some? &&
      Compare(h, dto.oldPassword, users[UserIndexById(users, userId).value].password) == Some(true)
    ensures (UserIndexById(users, userId).Some? &&
             Compare(h, dto.oldPassword, users[UserIndexById(users, userId).value].password) == Some(false))
      ==> r.0 == Failure(Http(BadRequest("Password is invalid.")))
    ensures (UserIndexById(users, userId).Some? &&
             Compare(h, dto.oldPassword, users[UserIndexById(users, userId).value].password).None?)
      ==> r.0 == Failure(CompareFailed)
    ensures r.0.Success? ==>
      && r.0.value == "Password updated"
      && var i := UserIndexById(users, userId).value;
         r.1 == users[i := users[i].(password := Hash(h, dto.newPassword, salt))]
  {
    var i := UserIndexById(users, userId);
    if i.None? then (Failure(Http(NotFound("User not found"))), users)
    else
      var matches := Compare(h, dto.oldPassword, users[i.value].password);
      if matches.None? then (Failure(CompareFailed), users)
      else if !matches.value then (Failure(Http(BadRequest("Password is invalid."))), users)
      else (Success("Password updated"), users[i.value := users[i.value].(password := Hash(h, dto.newPassword, salt))])
  }

  // ---------------------------------------------------------------------
  // Properties across operations

  /** Registration keeps ids and emails unique and emails lower-cased. */
  lemma RegisterKeepsAccountsWellFormed(a: Accounts, h: Hasher, dto: RegisterDto, freshId: Id, salt: string, otp: nat)
    requires UserIndexById(a.users, freshId).None? && 100000 <= otp <= 999999
    requires UniqueIds(a.users) && UniqueEmails(a.users) && LowerEmails(a.users)
    ensures var users := RegisterStep(a, h, dto, freshId, salt, otp).1.users;
      UniqueIds(users) && UniqueEmails(users) && LowerEmails(users)
  {
    var r := RegisterStep(a, h, dto, freshId, salt, otp);
    if r.0.Success? {
      LowerTwice(dto.email);
      var users := r.1.users;
      assert users[|a.users|].email == Lower(dto.email);
    }
  }

  /** The code registration stores verifies the new account. */
  lemma RegisterThenVerify(a: Accounts, h: Hasher, dto: RegisterDto, freshId: Id, salt: string, otp: nat)
    requires UserIndexById(a.users, freshId).None? && 100000 <= otp <= 999999
    requires RegisterStep(a, h, dto, freshId, salt, otp).0.Success?
    ensures var b := RegisterStep(a, h, dto, freshId, salt, otp).1;
      var v := VerifyEmailStep(b, freshId, DecimalString(otp));
      v.0 == Success("Email verified") && v.1.users[|a.users|].emailVerified
  {
    var b := RegisterStep(a, h, dto, freshId, salt, otp).1;
    assert b.users[|a.users|].id == freshId;
    assert UserIndexById(b.users, freshId) == Some(|a.users|);
  }

  /** A verification code works once: the same request again is refused. */
  lemma VerificationCodeIsSingleUse(a: Accounts, userId: Id, otp: string)
    requires VerifyEmailStep(a, userId, otp).0.Success?
    ensures VerifyEmailStep(VerifyEmailStep(a, userId, otp).1, userId, otp).0 == Failure(InvalidOtp)
  {
  }

  /** A successful resend moves a numeric window one step towards the limit. */
  lemma ResendAdvancesWindow(a: Accounts, userId: Id, otp: nat)
    requires 100000 <= otp <= 999999
    requires WindowCount(a.kv, userId).Some?
    requires ResendStep(a, userId, otp).0.Success?
    ensures WindowCount(a.kv, userId).value < ResendLimit
    ensures WindowCount(ResendStep(a, userId, otp).1.kv, userId) == Some(WindowCount(a.kv, userId).value + 1)
  {
    var n := WindowCount(a.kv, userId).value;
    var kv := ResendStep(a, userId, otp).1.kv;
    assert VerifyKey(userId) != ResendKey(userId) by {
      assert VerifyKey(userId)[0] == 'v' && ResendKey(userId)[0] == 'r';
    }
    assert kv[ResendKey(userId)] == DecimalString(n + 1);
    ParseDecimalString(n + 1);
  }

  /** The successful resends of a sequence of requests for one account. */
  function ResendAll(a: Accounts, userId: Id, otps: seq<nat>): (r: (nat, Accounts))
    requires forall k :: 0 <= k < |otps| ==> 100000 <= otps[k] <= 999999
    decreases |otps|
  {
    if otps == [] then (0, a)
    else
      var step := ResendStep(a, userId, otps[0]);
      var rest := ResendAll(step.1, userId, otps[1..]);
      ((if step.0.Success? then 1 else 0) + rest.0, rest.1)
  }

  /** Within one window, however many requests arrive, at most three codes are sent. */
  lemma {:induction false} ResendIsCapped(a: Accounts, userId: Id, otps: seq<nat>)
    requires forall k :: 0 <= k < |otps| ==> 100000 <= otps[k] <= 999999
    requires WindowCount(a.kv, userId).Some? && WindowCount(a.kv, userId).value <= ResendLimit
    ensures ResendAll(a, userId, otps).0 <= ResendLimit - WindowCount(a.kv, userId).value
    decreases |otps|
  {
    if otps != [] {
      var step := ResendStep(a, userId, otps[0]);
      if step.0.Success? {
        ResendAdvancesWindow(a, userId, otps[0]);
      }
      ResendIsCapped(step.1, userId, otps[1..]);
    }
  }

  /** A reset link works once. */
  lemma ResetLinkIsSingleUse(a: Accounts, h: Hasher, dto: ResetPasswordDto, salt: string, salt2: string)
    requires ResetPasswordStep(a, h, dto, salt).0.Success?
    ensures ResetPasswordStep(ResetPasswordStep(a, h, dto, salt).1, h, dto, salt2).0 == Failure(BadRequest(InvalidLink))
  {
  }

  /** The account at `i` is the one a login with its own email finds. */
  lemma LoginFindsAccount(users: seq<User>, i: nat)
    requires i < |users| && UniqueEmails(users) && LowerEmails(users)
    ensures UserIndexByEmail(users, Lower(users[i].email)) == Some(i)
  {
    assert Lower(users[i].email) == users[i].email;
  }

  /**
   * After a reset the account accepts exactly the passwords whose digest
   * matches the new one's; in particular it accepts the new password.
   */
  lemma LoginAfterReset(a: Accounts, h: Hasher, dto: ResetPasswordDto, salt: string, env: Env, attempt: string)
    requires ValidHasher(h) && ValidSalt(salt) && attempt != ""
    requires UniqueEmails(a.users) && LowerEmails(a.users)
    requires GetRequired(env, JwtSecret).Success? && GetRequired(env, JwtRefreshSecret).Success?
    requires ResetPasswordStep(a, h, dto, salt).0.Success?
    ensures var i := UserIndexById(a.users, a.kv[ResetKey(dto.hash)]).value;
      var users := ResetPasswordStep(a, h, dto, salt).1.users;
      LoginOutcome(users, h, env, LoginDto(a.users[i].email, attempt)).Success? <==>
        h.derive(attempt, salt) == h.derive(dto.password, salt)
  {
    var i := UserIndexById(a.users, a.kv[ResetKey(dto.hash)]).value;
    var users := ResetPasswordStep(a, h, dto, salt).1.users;
    assert forall k :: 0 <= k < |users| ==> users[k].email == a.users[k].email;
    LoginFindsAccount(users, i);
    HashThenCompare(h, dto.password, attempt, salt);
  }

  lemma LoginAfterChange(users: seq<User>, h: Hasher, userId: Id, dto: ChangePasswordDto, salt: string,
                         env: Env, attempt: string)
    requires ValidHasher(h) && ValidSalt(salt) && attempt != ""
    requires UniqueEmails(users) && LowerEmails(users)
    requires GetRequired(env, JwtSecret).Success? && GetRequired(env, JwtRefreshSecret).Success?
    requires ChangePasswordStep(users, h, userId, dto, salt).0.Success?
    ensures var i := UserIndexById(users, userId).value;
      var after := ChangePasswordStep(users, h, userId, dto, salt).1;
      LoginOutcome(after, h, env, LoginDto(users[i].email, attempt)).Success? <==>
        h.derive(attempt, salt) == h.derive(dto.newPassword, salt)
  {
    var i := UserIndexById(users, userId).value;
    var after := ChangePasswordStep(users, h, userId, dto, salt).1;
    assert forall k :: 0 <= k < |after| ==> after[k].email == users[k].email;
    LoginFindsAccount(after, i);
    HashThenCompare(h, dto.newPassword, attempt, salt);
  }

  // ---------------------------------------------------------------------
  // The service

  class UserService {
    const db: Database
    const redis: KeyValueStore
    const hasher: Hasher
    const env: Env

    constructor (db: Database, redis: KeyValueStore, hasher: Hasher, env: Env)
      ensures this.db == db && this.redis == redis && this.hasher == hasher && this.env == env
    {
      this.db := db;
      this.redis := redis;
      this.hasher := hasher;
      this.env := env;
    }

    method Register(dto: RegisterDto, freshId: Id, salt: string, otp: nat) returns (r: Result<Registered, AppError>)
      requires UserIndexById(db.users, freshId).None? && 100000 <= otp <= 999999
      modifies db, redis
      ensures (r, Accounts(db.users, redis.entries))
        == RegisterStep(old(Accounts(db.users, redis.entries)), hasher, dto, freshId, salt, otp)
      ensures db.inventories == old(db.inventories) && db.payments == old(db.payments)
    {
      var email := Lower(dto.email);
      if UserIndexByEmail(db.users, email).Some? {
        return Failure(Http(UserExists));
      }
      if dto.name == "" || email == "" {
        return Failure(UserValidationFailed);
      }
      db.users := db.users + [User(freshId, dto.name, email, false, Hash(hasher, dto.password, salt), 1)];
      redis.SetEx(VerifyKey(freshId), OneHour, DecimalString(otp));
      r := Success(Registered("Account created successfully", freshId, true));
    }

    method VerifyEmail(userId: Id, otp: string) returns (r: Result<string, HttpError>)
      modifies db, redis
      ensures (r, Accounts(db.users, redis.entries)) == VerifyEmailStep(old(Accounts(db.users, redis.entries)), userId, otp)
      ensures db.inventories == old(db.inventories) && db.payments == old(db.payments)
    {
      var key := VerifyKey(userId);
      var stored := redis.Get(key);
      if stored.None? || stored.value == "" || stored.value != otp {
        return Failure(InvalidOtp);
      }
      redis.Del(key);
      var i := UserIndexById(db.users, userId);
      if i.None? {
        return Failure(NotFound("User not found"));
      }
      db.users := db.users[i.value := db.users[i.value].(emailVerified := true)];
      r := Success("Email verified");
    }

    method ResendVerifyEmail(userId: Id, otp: nat) returns (r: Result<ResendResult, HttpError>)
      requires 100000 <= otp <= 999999
      modifies redis
      ensures (r, Accounts(db.users, redis.entries)) == ResendStep(old(Accounts(db.users, redis.entries)), userId, otp)
    {
      var i := UserIndexById(db.users, userId);
      if i.None? {
        return Failure(BadRequest("User not found"));
      }
      var user := db.users[i.value];
      if user.emailVerified {
        return Failure(BadRequest("Email already verified."));
      }
      var windowId := ResendKey(userId);
      var resendWindow := redis.Get(windowId);
      var raw := if resendWindow.None? || resendWindow.value == "" then "0" else resendWindow.value;
      var count := ParseDecimal(raw);
      if count.Some? && count.value >= ResendLimit {
        return Failure(BadRequest("Exceeded resend limit"));
      }
      redis.SetEx(windowId, OneHour, if count.Some? then DecimalString(count.value + 1) else "NaN");
      redis.SetEx(VerifyKey(userId), OneHour, DecimalString(otp));
      r := Success(ResendResult(user.email, user.name));
    }

    method Login(dto: LoginDto) returns (r: Result<LoggedIn, AppError>)
      ensures r == LoginOutcome(db.users, hasher, env, dto)
    {
      var i := UserIndexByEmail(db.users, Lower(dto.email));
      if i.None? {
        return Failure(Http(InvalidCredentials));
      }
      var user := db.users[i.value];
      var matches := Compare(hasher, dto.password, user.password);
      if matches.None? {
        return Failure(CompareFailed);
      }
      if !matches.value {
        return Failure(Http(InvalidCredentials));
      }
      var secret := GetRequired(env, JwtSecret);
      if secret.Failure? {
        return Failure(AsAppError(secret.error));
      }
      var refreshSecret := GetRequired(env, JwtRefreshSecret);
      if refreshSecret.Failure? {
        return Failure(AsAppError(refreshSecret.error));
      }
      r := Success(LoggedIn("Login successful", user.name, user.email));
    }

    method ForgotPassword(email: string, hash: string) returns (message: string)
      modifies redis
      ensures (message, Accounts(db.users, redis.entries)) == ForgotPasswordStep(old(Accounts(db.users, redis.entries)), email, hash)
    {
      var i := UserIndexByEmail(db.users, Lower(email));
      if i.Some? {
        redis.SetEx(ResetKey(hash), OneHour, db.users[i.value].id);
      }
      message := ResetRequested;
    }

    method ResetPassword(dto: ResetPasswordDto, salt: string) returns (r: Result<string, HttpError>)
      modifies db, redis
      ensures (r, Accounts(db.users, redis.entries)) == ResetPasswordStep(old(Accounts(db.users, redis.entries)), hasher, dto, salt)
      ensures db.inventories == old(db.inventories) && db.payments == old(db.payments)
    {
      var key := ResetKey(dto.hash);
      var userId := redis.Get(key);
      if userId.None? || userId.value == "" {
        return Failure(BadRequest(InvalidLink));
      }
      redis.Del(key);
      var i := UserIndexById(db.users, userId.value);
      if i.None? {
        return Failure(NotFound(InvalidLink));
      }
      db.users := db.users[i.value := db.users[i.value].(password := Hash(hasher, dto.password, salt))];
      r := Success("Password reset successful");
    }

    method GetUser(auth: AuthData) returns (r: Result<User, HttpError>)
      ensures r.Failure? <==> UserIndexById(db.users, auth.userId).None?
      ensures r.Failure? ==> r.error == BadRequest("User not found")
      ensures r.Success? ==> r.value.id == auth.userId && r.value in db.users
    {
      var i := UserIndexById(db.users, auth.userId);
      if i.None? {
        return Failure(BadRequest("User not found"));
      }
      r := Success(db.users[i.value]);
    }

    method ChangePassword(userId: Id, dto: ChangePasswordDto, salt: string) returns (r: Result<string, AppError>)
      modifies db
      ensures (r, db.users) == ChangePasswordStep(old(db.users), hasher, userId, dto, salt)
      ensures db.inventories == old(db.inventories) && db.payments == old(db.payments)
    {
      var i := UserIndexById(db.users, userId);
      if i.None? {
        return Failure(Http(NotFound("User not found")));
      }
      var matches := Compare(hasher, dto.oldPassword, db.users[i.value].password);
      if matches.None? {
        return Failure(CompareFailed);
      }
      if !matches.value {
        return Failure(Http(BadRequest("Password is invalid.")));
      }
      db.users := db.users[i.value := db.users[i.value].(password := Hash(hasher, dto.newPassword, salt))];
      r := Success("Password updated");
    }
  }
}
