/**
 * The user document of server/models/User.js: the login lockout counter with
 * its expiring lock, the `isLocked` virtual, and the verification tokens and
 * phone OTP with their expiry times.
 */
module UserModel {
  import opened Common
  import Decimal

  datatype Role = Customer | Admin | Seller

  /** One entry of the `addresses` sub-document array. */
  datatype SavedAddress = SavedAddress(
    id: AddressId,
    name: string,
    phone: string,
    address: string,
    city: string,
    state: string,
    pincode: string,
    isDefault: bool)

  datatype Notifications = Notifications(email: bool, sms: bool, push: bool)
  datatype Preferences = Preferences(notifications: Notifications, language: string, currency: string)

  /** The schema defaults of `preferences`. */
  const DefaultPreferences := Preferences(Notifications(true, false, true), "en", "INR")

  /** A stored user document (the password hash and OAuth id are not modelled). */
  datatype User = User(
    id: UserId,
    name: string,
    email: string,
    phone: Option<string>,
    role: Role,
    isEmailVerified: bool,
    isPhoneVerified: bool,
    emailVerificationToken: Option<string>,
    emailVerificationExpires: Option<int>,
    passwordResetToken: Option<string>,
    passwordResetExpires: Option<int>,
    phoneOTP: Option<string>,
    phoneOTPExpires: Option<int>,
    addresses: seq<SavedAddress>,
    preferences: Preferences,
    loginAttempts: int,
    lockUntil: Option<int>,
    isActive: bool)

  const MaxLoginAttempts: int := 5
  const LockDuration: int := 2 * MsPerHour
  const EmailVerificationLifetime: int := 24 * MsPerHour
  const PasswordResetLifetime: int := 10 * MsPerMinute
  const PhoneOtpLifetime: int := 5 * MsPerMinute

  // ---------------------------------------------------------------------------
  // Lockout

  /** The `isLocked` virtual: a lock is set and lies in the future. */
  predicate IsLocked(lockUntil: Option<int>, now: int)
  {
    lockUntil.Some? && lockUntil.value > now
  }

  /** A lock set before `now` has run out: `incLoginAttempts` then restarts the count. */
  predicate LockExpired(lockUntil: Option<int>, now: int)
  {
    lockUntil.Some? && lockUntil.value < now
  }

  /** The counter and lock that `incLoginAttempts` stores after a failed login at `now`. */
  function FailedLogin(attempts: int, lockUntil: Option<int>, now: int): (int, Option<int>)
  {
    if LockExpired(lockUntil, now) then (1, None)
    else if attempts + 1 >= MaxLoginAttempts && !IsLocked(lockUntil, now) then (attempts + 1, Some(now + LockDuration))
    else (attempts + 1, lockUntil)
  }

  /**
   * A failure after an expired lock restarts at one attempt and unlocks;
   * any other failure counts one more attempt.
   */
  lemma FailedLoginCounts(attempts: int, lockUntil: Option<int>, now: int)
    ensures var (a, l) := FailedLogin(attempts, lockUntil, now);
      && (LockExpired(lockUntil, now) ==> a == 1 && l.None? && !IsLocked(l, now))
      && (!LockExpired(lockUntil, now) ==> a == attempts + 1)
  {
  }

  /**
   * The failure that brings an unlocked account to five attempts locks it for
   * exactly two hours; a lock in force is never extended; below five
   * attempts the lock is left as it was.
   */
  lemma FailedLoginLocks(attempts: int, lockUntil: Option<int>, now: int)
    ensures var (a, l) := FailedLogin(attempts, lockUntil, now);
      && (!LockExpired(lockUntil, now) && !IsLocked(lockUntil, now) && attempts + 1 >= MaxLoginAttempts ==>
            && (forall t :: now <= t < now + LockDuration ==> IsLocked(l, t))
            && !IsLocked(l, now + LockDuration))
      && (IsLocked(lockUntil, now) ==> l == lockUntil)
      && (!LockExpired(lockUntil, now) && attempts + 1 < MaxLoginAttempts ==> l == lockUntil)
  {
  }

  /** Failed logins at the given instants, first to last. */
  function FailedLogins(attempts: int, lockUntil: Option<int>, times: seq<int>): (int, Option<int>)
  {
    if times == [] then (attempts, lockUntil)
    else
      var (a, l) := FailedLogins(attempts, lockUntil, times[..|times| - 1]);
      FailedLogin(a, l, times[|times| - 1])
  }

  /** From a clean account, four failures leave it unlocked with four attempts counted. */
  lemma {:induction false} FailuresBelowLimit(times: seq<int>)
    requires |times| < MaxLoginAttempts
    ensures FailedLogins(0, None, times) == (|times|, None)
  {
    if times != [] {
      FailuresBelowLimit(times[..|times| - 1]);
    }
  }

  /** From a clean account, the fifth failure locks it for two hours from that instant. */
  lemma FifthFailureLocks(times: seq<int>)
    requires |times| == MaxLoginAttempts
    ensures FailedLogins(0, None, times) == (MaxLoginAttempts, Some(times[|times| - 1] + LockDuration))
    ensures IsLocked(FailedLogins(0, None, times).1, times[|times| - 1])
  {
    FailuresBelowLimit(times[..|times| - 1]);
  }

  // ---------------------------------------------------------------------------
  // One-time codes

  /** `Math.floor(100000 + random * 900000)` for a `random` in [0, 1). */
  function OtpValue(random: real): (n: nat)
    requires 0.0 <= random < 1.0
    ensures 100000 <= n <= 999999
  {
    (100000.0 + random * 900000.0).Floor
  }

  /** The OTP as sent: always six decimal digits, never with a leading zero. */
  lemma OtpIsSixDigits(random: real)
    requires 0.0 <= random < 1.0
    ensures var otp := Decimal.NatToString(OtpValue(random));
      && |otp| == 6 && Decimal.AllDigits(otp) && otp[0] != '0'
      && 100000 <= Decimal.ParseDigits(otp) <= 999999
  {
    var n := OtpValue(random);
    assert Decimal.Pow10(5) == 100000 && Decimal.Pow10(6) == 1000000 by {
      assert Decimal.Pow10(1) == 10;
      assert Decimal.Pow10(2) == 100;
      assert Decimal.Pow10(3) == 1000;
      assert Decimal.Pow10(4) == 10000;
    }
    Decimal.NatToStringLength(n, 6);
    Decimal.ParseNatToString(n);
  }

  // ---------------------------------------------------------------------------
  // The document

  /** A user document loaded from the store; its methods change it in place. */
  class UserDocument {
    var id: UserId
    var name: string
    var email: string
    var phone: Option<string>
    var role: Role
    var isEmailVerified: bool
    var isPhoneVerified: bool
    var emailVerificationToken: Option<string>
    var emailVerificationExpires: Option<int>
    var passwordResetToken: Option<string>
    var passwordResetExpires: Option<int>
    var phoneOTP: Option<string>
    var phoneOTPExpires: Option<int>
    var addresses: seq<SavedAddress>
    var preferences: Preferences
    var loginAttempts: int
    var lockUntil: Option<int>
    var isActive: bool

    function Value(): User
      reads this
    {
      User(id, name, email, phone, role, isEmailVerified, isPhoneVerified,
           emailVerificationToken, emailVerificationExpires, passwordResetToken, passwordResetExpires,
           phoneOTP, phoneOTPExpires, addresses, preferences, loginAttempts, lockUntil, isActive)
    }

    constructor Load(u: User)
      ensures Value() == u
    {
      id, name, email, phone, role := u.id, u.name, u.email, u.phone, u.role;
      isEmailVerified, isPhoneVerified := u.isEmailVerified, u.isPhoneVerified;
      emailVerificationToken, emailVerificationExpires := u.emailVerificationToken, u.emailVerificationExpires;
      passwordResetToken, passwordResetExpires := u.passwordResetToken, u.passwordResetExpires;
      phoneOTP, phoneOTPExpires := u.phoneOTP, u.phoneOTPExpires;
      addresses, preferences := u.addresses, u.preferences;
      loginAttempts, lockUntil, isActive := u.loginAttempts, u.lockUntil, u.isActive;
    }

    /** `incLoginAttempts`: record one failed login at `now`. */
    method IncLoginAttempts(now: int)
      modifies this
      ensures (loginAttempts, lockUntil) == FailedLogin(old(loginAttempts), old(lockUntil), now)
      ensures Value() == old(Value()).(loginAttempts := loginAttempts, lockUntil := lockUntil)
    {
      if lockUntil.Some? && lockUntil.value < now {
        lockUntil := None;
        loginAttempts := 1;
        return;
      }
      if loginAttempts + 1 >= MaxLoginAttempts && !(lockUntil.Some? && lockUntil.value > now) {
        lockUntil := Some(now + LockDuration);
      }
      loginAttempts := loginAttempts + 1;
    }

    /** `resetLoginAttempts`: both fields unset; an unset counter reads back as its default 0. */
    method ResetLoginAttempts()
      modifies this
      ensures Value() == old(Value()).(loginAttempts := 0, lockUntil := None)
    {
      loginAttempts := 0;
      lockUntil := None;
    }

    /**
     * `generateEmailVerificationToken`: store the hash of the random token,
     * valid for 24 hours, and hand back the token itself.
     */
    method GenerateEmailVerificationToken(token: string, sha256: string -> string, now: int) returns (sent: string)
      modifies this
      ensures sent == token
      ensures Value() == old(Value()).(emailVerificationToken := Some(sha256(token)),
                                       emailVerificationExpires := Some(now + EmailVerificationLifetime))
    {
      emailVerificationToken := Some(sha256(token));
      emailVerificationExpires := Some(now + EmailVerificationLifetime);
      sent := token;
    }

    /** `generatePasswordResetToken`: as above, valid for 10 minutes. */
    method GeneratePasswordResetToken(token: string, sha256: string -> string, now: int) returns (sent: string)
      modifies this
      ensures sent == token
      ensures Value() == old(Value()).(passwordResetToken := Some(sha256(token)),
                                       passwordResetExpires := Some(now + PasswordResetLifetime))
    {
      passwordResetToken := Some(sha256(token));
      passwordResetExpires := Some(now + PasswordResetLifetime);
      sent := token;
    }

    /** `generatePhoneOTP`: a six-digit code, stored in clear and valid for 5 minutes. */
    method GeneratePhoneOTP(random: real, now: int) returns (otp: string)
      requires 0.0 <= random < 1.0
      modifies this
      ensures otp == Decimal.NatToString(OtpValue(random))
      ensures Value() == old(Value()).(phoneOTP := Some(otp), phoneOTPExpires := Some(now + PhoneOtpLifetime))
    {
      otp := Decimal.NatToString(OtpValue(random));
      phoneOTP := Some(otp);
      phoneOTPExpires := Some(now + PhoneOtpLifetime);
    }
  }
}
