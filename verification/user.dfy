/** The dashboard user of models/models.go: roles, the failed-login
    lockout and the password reset token. */
module UserModel {
  import opened Common

  const RoleAdmin := "admin"
  const RoleUser := "user"

  const MaxLoginAttempts := 5
  const LockoutDuration: int := 30 * Minute
  /** Lifetime of a password reset token. */
  const ResetTokenLifetime: int := Hour

  datatype UserNotificationPrefs = UserNotificationPrefs(
    EmailNotifications: bool,
    SMSNotifications: bool,
    PushNotifications: bool,
    MarketingEmails: bool,
    SecurityAlerts: bool)

  /** The `User` struct; instants are `ZeroTime` when unset. */
  datatype User = User(
    ID: string,
    Name: string,
    Email: string,
    Password: string,
    Role: string,
    IsActive: bool,
    Company: string,
    Phone: string,
    Avatar: string,
    EmailVerified: bool,
    EmailVerifyToken: string,
    PasswordResetToken: string,
    PasswordResetExpiry: int,
    LastLoginAt: int,
    LastLoginIP: string,
    LoginAttempts: int,
    LockedUntil: int,
    Timezone: string,
    Language: string,
    NotificationPrefs: UserNotificationPrefs,
    CreatedAt: int,
    UpdatedAt: int,
    CreatedBy: string)

  /** `IsValid`. */
  predicate IsValid(u: User)
  {
    u.Name != "" && u.Email != "" && u.Password != ""
  }

  /** `IsAdmin`. */
  predicate IsAdmin(u: User)
  {
    u.Role == RoleAdmin
  }

  /** `IsLocked`: a lock time is set and not yet reached. */
  predicate IsLocked(u: User, now: int)
  {
    u.LockedUntil != ZeroTime && now < u.LockedUntil
  }

  /** `CanLogin`. */
  predicate CanLogin(u: User, now: int)
    ensures CanLogin(u, now) ==> !IsLocked(u, now)
  {
    u.IsActive && !IsLocked(u, now) && u.EmailVerified
  }

  /** `IsPasswordResetTokenValid`. */
  predicate IsPasswordResetTokenValid(u: User, token: string, now: int)
  {
    u.PasswordResetToken == token && u.PasswordResetExpiry != ZeroTime && now < u.PasswordResetExpiry
  }

  /** `ToSafeUser`: the copy without the password and the two tokens. */
  function ToSafeUser(u: User): (safe: User)
    ensures safe.Password == "" && safe.PasswordResetToken == "" && safe.EmailVerifyToken == ""
    ensures safe.(Password := u.Password, PasswordResetToken := u.PasswordResetToken,
                  EmailVerifyToken := u.EmailVerifyToken) == u
  {
    u.(Password := "", PasswordResetToken := "", EmailVerifyToken := "")
  }

  /** The safe copy keeps every access decision about the user, except
      that no reset token works on it any more. */
  lemma ToSafeUserKeepsStatus(u: User, now: int)
    ensures IsAdmin(ToSafeUser(u)) == IsAdmin(u)
    ensures CanLogin(ToSafeUser(u), now) == CanLogin(u, now)
    ensures IsLocked(ToSafeUser(u), now) == IsLocked(u, now)
    ensures !IsValid(ToSafeUser(u))
    ensures ToSafeUser(ToSafeUser(u)) == ToSafeUser(u)
    ensures forall t :: t != "" ==> !IsPasswordResetTokenValid(ToSafeUser(u), t, now)
  {
  }

  /** The record after one failed login at `now`. */
  function FailedLogin(u: User, now: int): (r: User)
    ensures r.LoginAttempts == u.LoginAttempts + 1
    ensures r == u.(LoginAttempts := r.LoginAttempts, LockedUntil := r.LockedUntil, UpdatedAt := now)
    ensures r.LoginAttempts >= MaxLoginAttempts ==> r.LockedUntil == now + LockoutDuration
    ensures r.LoginAttempts < MaxLoginAttempts ==> r.LockedUntil == u.LockedUntil
  {
    var attempts := u.LoginAttempts + 1;
    u.(LoginAttempts := attempts,
       LockedUntil := if attempts >= MaxLoginAttempts then now + LockoutDuration else u.LockedUntil,
       UpdatedAt := now)
  }

  /** The fifth failure locks the account for the next 30 minutes, and a
      locked account cannot log in. */
  lemma FailedLoginLocks(u: User, now: int)
    requires u.LoginAttempts + 1 >= MaxLoginAttempts && now + LockoutDuration != ZeroTime
    ensures IsLocked(FailedLogin(u, now), now) && !CanLogin(FailedLogin(u, now), now)
    ensures !IsLocked(FailedLogin(u, now), now + LockoutDuration)
  {
  }

  /** A `*User`. `now` stands for `time.Now()`. */
  class UserRef {
    var val: User

    constructor (u: User)
      ensures val == u
    {
      val := u;
    }

    /** `IncrementLoginAttempts`: one more failure; from the fifth on the
        account is locked for 30 minutes from now. */
    method IncrementLoginAttempts(now: int)
      modifies this
      ensures val == FailedLogin(old(val), now)
    {
      val := val.(LoginAttempts := val.LoginAttempts + 1);
      if val.LoginAttempts >= MaxLoginAttempts {
        val := val.(LockedUntil := now + LockoutDuration);
      }
      val := val.(UpdatedAt := now);
    }

    /** `ResetLoginAttempts`: after a successful login. */
    method ResetLoginAttempts(now: int)
      modifies this
      ensures val == old(val).(LoginAttempts := 0, LockedUntil := ZeroTime, LastLoginAt := now, UpdatedAt := now)
      ensures forall t :: !IsLocked(val, t)
      ensures forall t :: CanLogin(val, t) <==> val.IsActive && val.EmailVerified
    {
      val := val.(LoginAttempts := 0, LockedUntil := ZeroTime, LastLoginAt := now, UpdatedAt := now);
    }

    /** `SetLastLogin`. */
    method SetLastLogin(ip: string, now: int)
      modifies this
      ensures val == old(val).(LastLoginAt := now, LastLoginIP := ip, UpdatedAt := now)
    {
      val := val.(LastLoginAt := now, LastLoginIP := ip, UpdatedAt := now);
    }

    /** `GeneratePasswordResetToken`, the token being given: it is valid
        for one hour from now and for no other text. */
    method GeneratePasswordResetToken(token: string, now: int) returns (t: string)
      modifies this
      ensures t == token
      ensures val == old(val).(PasswordResetToken := token, PasswordResetExpiry := now + ResetTokenLifetime, UpdatedAt := now)
      ensures now + ResetTokenLifetime != ZeroTime ==>
        forall s, later :: IsPasswordResetTokenValid(val, s, later) <==> s == token && later < now + ResetTokenLifetime
    {
      val := val.(PasswordResetToken := token, PasswordResetExpiry := now + ResetTokenLifetime, UpdatedAt := now);
      t := token;
    }

    /** `ClearPasswordResetToken`: no token is valid afterwards. */
    method ClearPasswordResetToken(now: int)
      modifies this
      ensures val == old(val).(PasswordResetToken := "", PasswordResetExpiry := ZeroTime, UpdatedAt := now)
      ensures forall t, later :: !IsPasswordResetTokenValid(val, t, later)
    {
      val := val.(PasswordResetToken := "", PasswordResetExpiry := ZeroTime, UpdatedAt := now);
    }
  }

  /** The record after `failures` failed logins at the same instant. */
  function AfterFailures(u: User, failures: nat, now: int): User
  {
    if failures == 0 then u else FailedLogin(AfterFailures(u, failures - 1, now), now)
  }

  /** Failures from a clean record: the counter counts them, and the lock
      is set exactly from the fifth on. */
  lemma {:induction false} FailuresUntilLock(u: User, failures: nat, now: int)
    requires u.LoginAttempts == 0
    ensures AfterFailures(u, failures, now).LoginAttempts == failures
    ensures failures >= MaxLoginAttempts ==> AfterFailures(u, failures, now).LockedUntil == now + LockoutDuration
    ensures failures < MaxLoginAttempts ==> AfterFailures(u, failures, now).LockedUntil == u.LockedUntil
  {
    if failures > 0 {
      FailuresUntilLock(u, failures - 1, now);
    }
  }
}
