/**
 * Authentication throttling (src/auth/auth.service.ts): the login-failure
 * lockout, the OTP send limit and single-use OTP verification. The service
 * keeps three dictionaries in memory; here they are the three map fields of
 * `AuthState`. Each transition on one key is first stated as a pure step
 * function, whose behaviour over a whole sequence of requests is proved in
 * the lemmas; the methods update the maps by exactly those steps.
 * `Date.now()`, the random OTP, the SMS delivery result and the token
 * signer are parameters.
 */
module Auth {
  import opened Common
  import opened Users

  const LoginWindowMs: int := 15 * 60 * 1000
  const LockMs: int := 10 * 60 * 1000
  const MaxLoginAttempts: int := 5
  const OtpWindowMs: int := 10 * 60 * 1000
  const MaxOtpRequests: int := 3
  const OtpTtlMs: int := 5 * 60 * 1000
  const MaxOtpAttempts: int := 5

  datatype LoginRecord = LoginRecord(count: int, firstAttemptAt: int, lockedUntil: Option<int>)
  datatype SendRecord = SendRecord(count: int, firstAttemptAt: int)
  datatype OtpRecord = OtpRecord(otp: string, expires: int, attempts: int)

  // ---------------------------------------------------------------------
  // sanitizeUser and the response of a successful login

  /** A user without `password` and `passwordHash`. */
  datatype SafeUser = SafeUser(
    id: string,
    name: string,
    email: Option<string>,
    mobile: Option<string>,
    avatar: Option<string>,
    pushToken: Option<string>)

  /** Put the two secret fields back on a sanitised user. */
  function Restore(s: SafeUser, password: Option<string>, passwordHash: Option<string>): User {
    User(s.id, s.name, s.email, password, passwordHash, s.mobile, s.avatar, s.pushToken)
  }

  /** `sanitizeUser`: drops exactly the two secret fields and keeps every other one. */
  function Sanitize(u: User): (s: SafeUser)
    ensures Restore(s, u.password, u.passwordHash) == u
  {
    SafeUser(u.id, u.name, u.email, u.mobile, u.avatar, u.pushToken)
  }

  /** The claims signed into the access token. */
  datatype TokenPayload = TokenPayload(sub: string, userId: string, email: Option<string>, mobile: Option<string>)

  datatype AuthResult = AuthResult(accessToken: string, user: SafeUser)

  /** `buildAuthResult`, with the token signer as a parameter. */
  function BuildAuthResult(u: User, sign: TokenPayload -> string): AuthResult {
    AuthResult(sign(TokenPayload(u.id, u.id, u.email, u.mobile)), Sanitize(u))
  }

  /** The response of `sendOtp`; it has no field that could carry the code. */
  datatype OtpSent = OtpSent(success: bool, message: string)

  // ---------------------------------------------------------------------
  // Login lockout

  /** `record?.lockedUntil` is truthy. */
  predicate LockSet(rec: Option<LoginRecord>) {
    rec.Some? && rec.value.lockedUntil.Some? && rec.value.lockedUntil.value != 0
  }

  /** `assertLoginAttemptAllowed` throws: the lock is set and still in the future. */
  predicate Locked(rec: Option<LoginRecord>, now: int) {
    LockSet(rec) && rec.value.lockedUntil.value > now
  }

  /** The record `assertLoginAttemptAllowed` leaves when it lets the attempt through. */
  function AfterGate(rec: Option<LoginRecord>, now: int): (r: Option<LoginRecord>)
    requires !Locked(rec, now)
    ensures LockSet(rec) ==> r.None?
    ensures !LockSet(rec) ==> r == rec
  {
    if LockSet(rec) then None else rec
  }

  /** The record `registerLoginFailure` stores. */
  function AfterFailure(rec: Option<LoginRecord>, now: int): (r: LoginRecord)
    ensures rec.None? || now - rec.value.firstAttemptAt > LoginWindowMs ==> r == LoginRecord(1, now, None)
    ensures rec.Some? && now - rec.value.firstAttemptAt <= LoginWindowMs ==>
      (r.count == rec.value.count + 1 && r.firstAttemptAt == rec.value.firstAttemptAt
      && (r.count >= MaxLoginAttempts <==> r.lockedUntil == Some(now + LockMs))
      && (r.count < MaxLoginAttempts <==> r.lockedUntil.None?))
  {
    if rec.None? || now - rec.value.firstAttemptAt > LoginWindowMs then LoginRecord(1, now, None)
    else
      var nextCount := rec.value.count + 1;
      if nextCount >= MaxLoginAttempts then LoginRecord(nextCount, rec.value.firstAttemptAt, Some(now + LockMs))
      else LoginRecord(nextCount, rec.value.firstAttemptAt, None)
  }

  /** What one call of `login` does for its identifier. */
  datatype LoginStep = Throttled | Rejected(record: LoginRecord) | Accepted

  /** One `login` on an identifier with record `rec`, whose credentials are `valid` or not. */
  function LoginAttempt(rec: Option<LoginRecord>, now: int, valid: bool): (s: LoginStep)
    ensures s.Throttled? <==> Locked(rec, now)
    ensures s.Accepted? <==> !Locked(rec, now) && valid
  {
    if Locked(rec, now) then Throttled
    else if !valid then Rejected(AfterFailure(AfterGate(rec, now), now))
    else Accepted
  }

  /** The identifier's record after a login step. */
  function RecordAfterLogin(rec: Option<LoginRecord>, s: LoginStep): Option<LoginRecord> {
    match s
    case Throttled => rec
    case Rejected(r) => Some(r)
    case Accepted => None
  }

  /** One login request: when it arrives and whether its credentials check. */
  datatype LoginTry = LoginTry(at: int, valid: bool)

  /** The identifier's record after a sequence of login requests. */
  function LoginReplay(rec: Option<LoginRecord>, tries: seq<LoginTry>): Option<LoginRecord>
    decreases |tries|
  {
    if |tries| == 0 then rec
    else
      var before := LoginReplay(rec, tries[..|tries| - 1]);
      var t := tries[|tries| - 1];
      RecordAfterLogin(before, LoginAttempt(before, t.at, t.valid))
  }

  /**
   * Up to five failed logins whose times lie within 15 minutes of the first
   * count up from 1 and keep the first time; the fifth sets the lock for 10
   * minutes after itself.
   */
  lemma {:induction false} FailuresCountUp(tries: seq<LoginTry>)
    requires 1 <= |tries| <= MaxLoginAttempts
    requires forall k :: 0 <= k < |tries| ==> !tries[k].valid && tries[k].at >= 0
    requires forall k :: 0 <= k < |tries| ==> tries[k].at - tries[0].at <= LoginWindowMs
    ensures LoginReplay(None, tries) == Some(LoginRecord(|tries|, tries[0].at,
      if |tries| == MaxLoginAttempts then Some(tries[|tries| - 1].at + LockMs) else None))
  {
    if |tries| > 1 {
      var init := tries[..|tries| - 1];
      FailuresCountUp(init);
    }
  }

  /**
   * Five failures within 15 minutes lock the identifier: for the next 10
   * minutes every login is throttled, even with the right password, and
   * leaves the record as it is; afterwards a correct login is accepted and
   * clears the record.
   */
  lemma FiveFailuresLock(tries: seq<LoginTry>, now: int, valid: bool)
    requires |tries| == MaxLoginAttempts
    requires forall k :: 0 <= k < |tries| ==> !tries[k].valid && tries[k].at >= 0
    requires forall k :: 0 <= k < |tries| ==> tries[k].at - tries[0].at <= LoginWindowMs
    ensures var rec := LoginReplay(None, tries);
      var unlock := tries[|tries| - 1].at + LockMs;
      && (now < unlock ==> LoginAttempt(rec, now, valid) == Throttled && LoginReplay(None, tries + [LoginTry(now, valid)]) == rec)
      && (now >= unlock && valid ==> LoginReplay(None, tries + [LoginTry(now, valid)]) == None)
  {
    FailuresCountUp(tries);
    var extended := tries + [LoginTry(now, valid)];
    assert extended[..|extended| - 1] == tries;
  }

  /** After a lock has expired, a failure starts a fresh count. */
  lemma ExpiredLockRestartsCount(rec: LoginRecord, now: int)
    requires rec.lockedUntil.Some? && rec.lockedUntil.value != 0 && rec.lockedUntil.value <= now
    ensures LoginAttempt(Some(rec), now, false) == Rejected(LoginRecord(1, now, None))
  {
  }

  // ---------------------------------------------------------------------
  // OTP send limit

  /** `assertOtpSendAllowed`: the new record, or None when the request is refused (state unchanged). */
  function SendGate(rec: Option<SendRecord>, now: int): (r: Option<SendRecord>)
    ensures rec.None? || now - rec.value.firstAttemptAt > OtpWindowMs ==> r == Some(SendRecord(1, now))
    ensures rec.Some? && now - rec.value.firstAttemptAt <= OtpWindowMs ==>
      (r.None? <==> rec.value.count >= MaxOtpRequests)
    ensures rec.Some? && r.Some? && now - rec.value.firstAttemptAt <= OtpWindowMs ==>
      r.value == SendRecord(rec.value.count + 1, rec.value.firstAttemptAt)
  {
    if rec.None? || now - rec.value.firstAttemptAt > OtpWindowMs then Some(SendRecord(1, now))
    else if rec.value.count >= MaxOtpRequests then None
    else Some(SendRecord(rec.value.count + 1, rec.value.firstAttemptAt))
  }

  /** The mobile's send record after a sequence of send requests at the given times. */
  function SendReplay(times: seq<int>): Option<SendRecord>
    decreases |times|
  {
    if |times| == 0 then None
    else
      var before := SendReplay(times[..|times| - 1]);
      match SendGate(before, times[|times| - 1])
      case None => before
      case Some(r) => Some(r)
  }

  /** How many of those requests the send limit let through. */
  function SendsAllowed(times: seq<int>): nat
    decreases |times|
  {
    if |times| == 0 then 0
    else
      var before := SendReplay(times[..|times| - 1]);
      SendsAllowed(times[..|times| - 1]) + (if SendGate(before, times[|times| - 1]).Some? then 1 else 0)
  }

  function Min(a: int, b: int): int { if a <= b then a else b }

  /**
   * Of any number of send requests within 10 minutes of the first, exactly
   * the first three go through; the counter stops at three and keeps the
   * window's start.
   */
  lemma {:induction false} AtMostThreeSendsPerWindow(times: seq<int>)
    requires |times| >= 1
    requires forall k :: 0 <= k < |times| ==> times[k] - times[0] <= OtpWindowMs
    ensures SendReplay(times) == Some(SendRecord(Min(|times|, MaxOtpRequests), times[0]))
    ensures SendsAllowed(times) == Min(|times|, MaxOtpRequests)
  {
    if |times| > 1 {
      AtMostThreeSendsPerWindow(times[..|times| - 1]);
    }
  }

  // ---------------------------------------------------------------------
  // OTP verification

  /** The `reason` of a failed verification, or success. */
  datatype Verdict = Missing | Expired | AttemptsExceeded | Invalid | Verified

  datatype VerifyResult = VerifyResult(verdict: Verdict, after: Option<OtpRecord>)

  /** One `verifyOtp` on a mobile whose stored record is `rec`. */
  function VerifyStep(rec: Option<OtpRecord>, now: int, otp: string): (r: VerifyResult)
    ensures rec.None? <==> r.verdict == Missing
    ensures r.verdict == Expired <==> rec.Some? && now > rec.value.expires
    ensures r.verdict == Verified <==> rec.Some? && now <= rec.value.expires && rec.value.otp == otp
    ensures r.verdict == Invalid ==>
      (r.after == Some(rec.value.(attempts := rec.value.attempts + 1)) && rec.value.attempts + 1 < MaxOtpAttempts)
    ensures r.verdict != Invalid ==> r.after.None?
    ensures rec.Some? && now <= rec.value.expires && rec.value.otp != otp ==>
      (r.verdict == Invalid <==> rec.value.attempts + 1 < MaxOtpAttempts)
      && (r.verdict == AttemptsExceeded <==> rec.value.attempts + 1 >= MaxOtpAttempts)
  {
    if rec.None? then VerifyResult(Missing, None)
    else if now > rec.value.expires then VerifyResult(Expired, None)
    else if rec.value.otp != otp then
      var attempts := rec.value.attempts + 1;
      if attempts >= MaxOtpAttempts then VerifyResult(AttemptsExceeded, None)
      else VerifyResult(Invalid, Some(rec.value.(attempts := attempts)))
    else VerifyResult(Verified, None)
  }

  /** One verification request: when it arrives and the code it carries. */
  datatype OtpTry = OtpTry(at: int, code: string)

  /** The verdicts of a sequence of verification requests on one mobile. */
  function Verdicts(rec: Option<OtpRecord>, tries: seq<OtpTry>): (vs: seq<Verdict>)
    ensures |vs| == |tries|
    decreases |tries|
  {
    if |tries| == 0 then []
    else
      var r := VerifyStep(rec, tries[0].at, tries[0].code);
      [r.verdict] + Verdicts(r.after, tries[1..])
  }

  /** Without a stored code every request is answered 'missing'. */
  lemma {:induction false} NoCodeAllMissing(tries: seq<OtpTry>)
    ensures forall i :: 0 <= i < |tries| ==> Verdicts(None, tries)[i] == Missing
  {
    if |tries| > 0 {
      NoCodeAllMissing(tries[1..]);
    }
  }

  /** An OTP is single use: once a request is verified, every later one is 'missing'. */
  lemma {:induction false} OtpSingleUse(rec: Option<OtpRecord>, tries: seq<OtpTry>)
    ensures forall i, j :: 0 <= i < j < |tries| && Verdicts(rec, tries)[i] == Verified ==>
      Verdicts(rec, tries)[j] == Missing
    decreases |tries|
  {
    if |tries| > 0 {
      var r := VerifyStep(rec, tries[0].at, tries[0].code);
      var vs, rest := Verdicts(rec, tries), Verdicts(r.after, tries[1..]);
      assert vs == [r.verdict] + rest;
      OtpSingleUse(r.after, tries[1..]);
      if r.verdict == Verified {
        NoCodeAllMissing(tries[1..]);
      }
      forall i, j | 0 <= i < j < |tries| && vs[i] == Verified ensures vs[j] == Missing {
        assert vs[j] == rest[j - 1];
        if i > 0 {
          assert vs[i] == rest[i - 1];
          assert Verdicts(r.after, tries[1..])[j - 1] == Missing;
        } else {
          assert Verdicts(None, tries[1..])[j - 1] == Missing;
        }
      }
    }
  }

  /**
   * A stored code is compared at most five times in all: after a record
   * with `attempts` wrong guesses, every request from the (5 - attempts)-th
   * on is answered 'missing'.
   */
  lemma {:induction false} AtMostFiveGuesses(rec: OtpRecord, tries: seq<OtpTry>)
    requires 0 <= rec.attempts < MaxOtpAttempts
    ensures forall i :: MaxOtpAttempts - rec.attempts <= i < |tries| ==> Verdicts(Some(rec), tries)[i] == Missing
    decreases |tries|
  {
    if |tries| > 0 {
      var r := VerifyStep(Some(rec), tries[0].at, tries[0].code);
      var vs, rest := Verdicts(Some(rec), tries), Verdicts(r.after, tries[1..]);
      assert vs == [r.verdict] + rest;
      if r.after.Some? {
        var next := r.after.value;
        assert next.attempts == rec.attempts + 1;
        AtMostFiveGuesses(next, tries[1..]);
        assert rest == Verdicts(Some(next), tries[1..]);
        forall i | MaxOtpAttempts - rec.attempts <= i < |vs| ensures vs[i] == Missing {
          assert vs[i] == rest[i - 1];
          assert Verdicts(Some(next), tries[1..])[i - 1] == Missing;
        }
      } else {
        NoCodeAllMissing(tries[1..]);
        forall i | MaxOtpAttempts - rec.attempts <= i < |vs| ensures vs[i] == Missing {
          assert vs[i] == rest[i - 1];
        }
      }
    }
  }

  /**
   * Wrong codes before expiry are answered 'invalid' until the fifth wrong
   * attempt, which is answered 'attempts exceeded' and clears the code.
   */
  lemma {:induction false} WrongCodesClearTheCode(rec: OtpRecord, tries: seq<OtpTry>)
    requires 0 <= rec.attempts < MaxOtpAttempts
    requires |tries| == MaxOtpAttempts - rec.attempts
    requires forall k :: 0 <= k < |tries| ==> tries[k].at <= rec.expires && tries[k].code != rec.otp
    ensures Verdicts(Some(rec), tries) == seq(|tries| - 1, _ => Invalid) + [AttemptsExceeded]
    decreases |tries|
  {
    var r := VerifyStep(Some(rec), tries[0].at, tries[0].code);
    if |tries| > 1 {
      WrongCodesClearTheCode(r.after.value, tries[1..]);
      assert Verdicts(Some(rec), tries) == [Invalid] + Verdicts(r.after, tries[1..]);
    }
  }

  // ---------------------------------------------------------------------
  // The service state

  class AuthState {
    var loginAttempts: map<string, LoginRecord>
    var otpSendAttempts: map<string, SendRecord>
    var otpStore: map<string, OtpRecord>

    constructor ()
      ensures loginAttempts == map[] && otpSendAttempts == map[] && otpStore == map[]
    {
      loginAttempts, otpSendAttempts, otpStore := map[], map[], map[];
    }

    /** `assertLoginAttemptAllowed`: refuses a locked identifier and forgets an expired lock. */
    method AssertLoginAttemptAllowed(identifier: string, now: int) returns (r: Outcome)
      modifies this
      ensures var rec := Get(old(loginAttempts), identifier);
        if Locked(rec, now) then
          r == Fail(TooManyRequests("Too many failed login attempts. Try again later."))
          && loginAttempts == old(loginAttempts)
        else r == Pass && loginAttempts == Put(old(loginAttempts), identifier, AfterGate(rec, now))
      ensures otpSendAttempts == old(otpSendAttempts) && otpStore == old(otpStore)
    {
      var rec := Get(loginAttempts, identifier);
      if !LockSet(rec) {
        return Pass;
      }
      if rec.value.lockedUntil.value > now {
        return Fail(TooManyRequests("Too many failed login attempts. Try again later."));
      }
      loginAttempts := loginAttempts - {identifier};
      r := Pass;
    }

    /** `registerLoginFailure`. */
    method RegisterLoginFailure(identifier: string, now: int)
      modifies this
      ensures loginAttempts == old(loginAttempts)[identifier := AfterFailure(Get(old(loginAttempts), identifier), now)]
      ensures otpSendAttempts == old(otpSendAttempts) && otpStore == old(otpStore)
    {
      var existing := Get(loginAttempts, identifier);
      if existing.None? || now - existing.value.firstAttemptAt > LoginWindowMs {
        loginAttempts := loginAttempts[identifier := LoginRecord(1, now, None)];
        return;
      }
      var nextCount := existing.value.count + 1;
      if nextCount >= MaxLoginAttempts {
        loginAttempts := loginAttempts[identifier := LoginRecord(nextCount, existing.value.firstAttemptAt, Some(now + LockMs))];
        return;
      }
      loginAttempts := loginAttempts[identifier := LoginRecord(nextCount, existing.value.firstAttemptAt, None)];
    }

    /** `clearLoginFailures`. */
    method ClearLoginFailures(identifier: string)
      modifies this
      ensures loginAttempts == old(loginAttempts) - {identifier}
      ensures otpSendAttempts == old(otpSendAttempts) && otpStore == old(otpStore)
    {
      loginAttempts := loginAttempts - {identifier};
    }

    /** `assertOtpSendAllowed`: a refused request leaves the counter as it was. */
    method AssertOtpSendAllowed(mobile: string, now: int) returns (r: Outcome)
      modifies this
      ensures match SendGate(Get(old(otpSendAttempts), mobile), now)
        case None =>
          r == Fail(TooManyRequests("Too many OTP requests. Try again later."))
          && otpSendAttempts == old(otpSendAttempts)
        case Some(next) => r == Pass && otpSendAttempts == old(otpSendAttempts)[mobile := next]
      ensures loginAttempts == old(loginAttempts) && otpStore == old(otpStore)
    {
      var existing := Get(otpSendAttempts, mobile);
      if existing.None? || now - existing.value.firstAttemptAt > OtpWindowMs {
        otpSendAttempts := otpSendAttempts[mobile := SendRecord(1, now)];
        return Pass;
      }
      if existing.value.count >= MaxOtpRequests {
        return Fail(TooManyRequests("Too many OTP requests. Try again later."));
      }
      otpSendAttempts := otpSendAttempts[mobile := SendRecord(existing.value.count + 1, existing.value.firstAttemptAt)];
      r := Pass;
    }

    /**
     * `login`: the identifier is the normalised email; its record moves by
     * exactly one `LoginAttempt` step, and only an accepted attempt returns
     * the (sanitised) validated user.
     */
    method Login(store: UserStore, email: string, password: string, now: int,
                 hash: string -> string, compare: (string, string) -> bool,
                 sign: TokenPayload -> string) returns (r: Result<AuthResult>)
      modifies this, store
      ensures |store.users| == |old(store.users)|
      ensures var identifier := NormalizeEmail(email);
        var step := LoginAttempt(Get(old(loginAttempts), identifier), now,
          ValidatedIndex(old(store.users), email, password, compare).Some?);
        loginAttempts == Put(old(loginAttempts), identifier, RecordAfterLogin(Get(old(loginAttempts), identifier), step))
      ensures Locked(Get(old(loginAttempts), NormalizeEmail(email)), now) ==>
        r == Err(TooManyRequests("Too many failed login attempts. Try again later.")) && store.users == old(store.users)
      ensures (!Locked(Get(old(loginAttempts), NormalizeEmail(email)), now)
        && ValidatedIndex(old(store.users), email, password, compare).None?) ==>
        r == Err(Unauthorized("Invalid email or password")) && store.users == old(store.users)
      ensures (!Locked(Get(old(loginAttempts), NormalizeEmail(email)), now)
        && ValidatedIndex(old(store.users), email, password, compare).Some?) ==>
        var i := ValidatedIndex(old(store.users), email, password, compare).value;
        var u := AfterValidation(old(store.users)[i], hash);
        r == Ok(BuildAuthResult(u, sign)) && store.users == old(store.users)[i := u]
      ensures otpSendAttempts == old(otpSendAttempts) && otpStore == old(otpStore)
    {
      var identifier := NormalizeEmail(email);
      ghost var rec := Get(loginAttempts, identifier);
      var gate := AssertLoginAttemptAllowed(identifier, now);
      if gate.Fail? {
        return Err(gate.error);
      }
      var user := store.ValidateCredentials(email, password, hash, compare);
      r := FinishLogin(identifier, now, user, sign);
      PutPut(old(loginAttempts), identifier, AfterGate(rec, now), RecordAfterLogin(AfterGate(rec, now), LoginAttempt(AfterGate(rec, now), now, user.Some?)));
    }

    /** The end of `login`: a failed check is registered, a passed one clears the identifier's record. */
    method FinishLogin(identifier: string, now: int, user: Option<User>, sign: TokenPayload -> string)
      returns (r: Result<AuthResult>)
      modifies this
      ensures user.None? ==>
        (r == Err(Unauthorized("Invalid email or password"))
         && loginAttempts == old(loginAttempts)[identifier := AfterFailure(Get(old(loginAttempts), identifier), now)])
      ensures user.Some? ==>
        (r == Ok(BuildAuthResult(user.value, sign)) && loginAttempts == old(loginAttempts) - {identifier})
      ensures otpSendAttempts == old(otpSendAttempts) && otpStore == old(otpStore)
    {
      if user.None? {
        RegisterLoginFailure(identifier, now);
        return Err(Unauthorized("Invalid email or password"));
      }
      ClearLoginFailures(identifier);
      r := Ok(BuildAuthResult(user.value, sign));
    }

    /**
     * `sendOtp`: the send limit counts the request first; an unknown mobile
     * is refused; otherwise the code is stored for five minutes with no
     * attempts, and removed again when the SMS is not sent. The response
     * does not depend on the code.
     */
    method SendOtp(store: UserStore, mobile: string, now: int, otp: string, smsSent: bool)
      returns (r: Result<OtpSent>)
      modifies this
      ensures match SendGate(Get(old(otpSendAttempts), mobile), now)
        case None =>
          r == Err(TooManyRequests("Too many OTP requests. Try again later."))
          && otpSendAttempts == old(otpSendAttempts) && otpStore == old(otpStore)
        case Some(next) =>
          var known := FindOneByMobile(store.users, mobile).Some?;
          && otpSendAttempts == old(otpSendAttempts)[mobile := next]
          && (!known ==> r == Err(Unauthorized("Mobile number not found")) && otpStore == old(otpStore))
          && (known && !smsSent ==>
                r == Err(BadRequest("Failed to send OTP SMS. Please verify Twilio settings and number format."))
                && otpStore == old(otpStore) - {mobile})
          && (known && smsSent ==>
                r == Ok(OtpSent(true, "OTP sent successfully"))
                && otpStore == old(otpStore)[mobile := OtpRecord(otp, now + OtpTtlMs, 0)])
      ensures loginAttempts == old(loginAttempts)
    {
      var gate := AssertOtpSendAllowed(mobile, now);
      if gate.Fail? {
        return Err(gate.error);
      }
      var user := FindOneByMobile(store.users, mobile);
      r := IssueOtp(user.Some?, mobile, now, otp, smsSent);
    }

    /** The part of `sendOtp` after the send limit and the user lookup: store the code, send it. */
    method IssueOtp(known: bool, mobile: string, now: int, otp: string, smsSent: bool)
      returns (r: Result<OtpSent>)
      modifies this
      ensures !known ==> r == Err(Unauthorized("Mobile number not found")) && otpStore == old(otpStore)
      ensures known && !smsSent ==>
        r == Err(BadRequest("Failed to send OTP SMS. Please verify Twilio settings and number format."))
        && otpStore == old(otpStore) - {mobile}
      ensures known && smsSent ==>
        r == Ok(OtpSent(true, "OTP sent successfully"))
        && otpStore == old(otpStore)[mobile := OtpRecord(otp, now + OtpTtlMs, 0)]
      ensures loginAttempts == old(loginAttempts) && otpSendAttempts == old(otpSendAttempts)
    {
      if !known {
        return Err(Unauthorized("Mobile number not found"));
      }
      otpStore := otpStore[mobile := OtpRecord(otp, now + OtpTtlMs, 0)];
      if !smsSent {
        DeleteAfterSet(old(otpStore), mobile, OtpRecord(otp, now + OtpTtlMs, 0));
        otpStore := otpStore - {mobile};
        return Err(BadRequest("Failed to send OTP SMS. Please verify Twilio settings and number format."));
      }
      r := Ok(OtpSent(true, "OTP sent successfully"));
    }

    /**
     * `verifyOtp`: the stored record moves by exactly one `VerifyStep`; each
     * failed verdict has its own message, and a verified code logs in the
     * user the mobile belongs to.
     */
    method VerifyOtp(store: UserStore, mobile: string, otp: string, now: int, sign: TokenPayload -> string)
      returns (r: Result<AuthResult>)
      modifies this
      ensures var step := VerifyStep(Get(old(otpStore), mobile), now, otp);
        && otpStore == Put(old(otpStore), mobile, step.after)
        && r == match step.verdict
          case Missing => Err(BadRequest("OTP not found or expired"))
          case Expired => Err(BadRequest("OTP expired"))
          case AttemptsExceeded => Err(BadRequest("OTP verification attempts exceeded"))
          case Invalid => Err(BadRequest("Invalid OTP"))
          case Verified =>
            match FindOneByMobile(store.users, mobile)
            case None => Err(Unauthorized("Mobile number not found"))
            case Some(u) => Ok(BuildAuthResult(u, sign))
      ensures loginAttempts == old(loginAttempts) && otpSendAttempts == old(otpSendAttempts)
    {
      var rec := Get(otpStore, mobile);
      var verdict: Verdict;
      if rec.None? {
        verdict := Missing;
      } else if now > rec.value.expires {
        otpStore := otpStore - {mobile};
        verdict := Expired;
      } else if rec.value.otp != otp {
        var attempts := rec.value.attempts + 1;
        if attempts >= MaxOtpAttempts {
          otpStore := otpStore - {mobile};
          verdict := AttemptsExceeded;
        } else {
          otpStore := otpStore[mobile := rec.value.(attempts := attempts)];
          verdict := Invalid;
        }
      } else {
        otpStore := otpStore - {mobile};
        verdict := Verified;
      }
      if verdict == Missing {
        return Err(BadRequest("OTP not found or expired"));
      }
      if verdict == Expired {
        return Err(BadRequest("OTP expired"));
      }
      if verdict == AttemptsExceeded {
        return Err(BadRequest("OTP verification attempts exceeded"));
      }
      if verdict != Verified {
        return Err(BadRequest("Invalid OTP"));
      }
      var user := FindOneByMobile(store.users, mobile);
      if user.None? {
        return Err(Unauthorized("Mobile number not found"));
      }
      r := Ok(BuildAuthResult(user.value, sign));
    }
  }
}
