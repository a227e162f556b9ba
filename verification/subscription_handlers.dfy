/** The subscription endpoints of handlers/subscription.go: the status
    report, renewal, suspension, reactivation, the quota update and the
    usage reset, each as a decision plus the writes it makes to the store,
    and the warning rules of `getUsageWarnings`. */
module SubscriptionHandlers {
  import opened Common
  import opened ProjectModel
  import opened Store
  import Config

  const NotFound := "Project not found"

  /** `getProjectByID`. */
  function GetProjectByID(db: seq<Doc>, projectID: string): Option<Project>
  {
    FindOne(db, projectID)
  }

  // -------------------------------------------------------------------
  // GetSubscriptionStatus
  // -------------------------------------------------------------------

  /** The decision part of the status response. */
  datatype StatusReport = StatusReport(
    status: string,
    remainingTokens: int,
    isActive: bool,
    needsRenewal: bool)

  /** The reported status is "expired" once the date has passed, whatever is
      stored; remaining tokens are clamped at zero; `is_active` needs a
      reported "active" and time left; renewal is due within three days. */
  function ReportStatus(p: Project, now: int): (r: StatusReport)
    ensures now > p.ExpiryDate ==> r.status == StatusExpired
    ensures !(now > p.ExpiryDate) ==> r.status == p.Status
    ensures r.remainingTokens == GetRemainingTokens(p) && r.remainingTokens >= 0
    ensures r.isActive <==> p.Status == StatusActive && now < p.ExpiryDate
    ensures r.needsRenewal <==> p.ExpiryDate - now <= 3 * Day
  {
    var status := if now > p.ExpiryDate && p.Status != StatusExpired then StatusExpired else p.Status;
    var remaining := p.MonthlyTokenLimit - p.TotalTokensUsed;
    StatusReport(
      status,
      if remaining < 0 then 0 else remaining,
      status == StatusActive && p.ExpiryDate - now > 0,
      p.ExpiryDate - now <= 3 * Day)
  }

  /** The reported `is_active` agrees with `IsProjectActive` on every record
      whose `IsActive` flag is set. */
  lemma ReportedActiveIsProjectActive(p: Project, now: int)
    requires p.IsActive
    ensures ReportStatus(p, now).isActive <==> IsProjectActive(p, now)
  {
  }

  /** `GetSubscriptionStatus`: a record found past its date and not yet
      stored as expired is written as "expired". */
  method GetSubscriptionStatus(db: Database, projectID: string, now: int) returns (r: Result<StatusReport>)
    modifies db
    ensures r.Ok? <==> GetProjectByID(old(db.projects), projectID).Some?
    ensures r.Ok? ==> r.value == ReportStatus(GetProjectByID(old(db.projects), projectID).value, now)
    ensures r.Ok? && r.value.status == StatusExpired && GetProjectByID(old(db.projects), projectID).value.Status != StatusExpired
      ==> db.projects == UpdateOneIn(old(db.projects), projectID, StatusSet(StatusExpired, now)).docs
    ensures !(r.Ok? && r.value.status == StatusExpired && GetProjectByID(old(db.projects), projectID).value.Status != StatusExpired)
      ==> db.projects == old(db.projects)
    ensures db.notifications == old(db.notifications) && db.chatMessages == old(db.chatMessages)
  {
    var found := GetProjectByID(db.projects, projectID);
    if found.None? {
      return Err(NotFound);
    }
    var p := found.value;
    if now > p.ExpiryDate && p.Status != StatusExpired {
      var _ := db.UpdateOne(projectID, StatusSet(StatusExpired, now));
    }
    r := Ok(ReportStatus(p, now));
  }

  // -------------------------------------------------------------------
  // RenewSubscription
  // -------------------------------------------------------------------

  datatype RenewRequest = RenewRequest(
    months: int,
    resetTokens: bool,
    newTokenLimit: int,
    extendFromNow: bool)

  /** The body as used: when binding fails, months, token reset and
      extend-from-now fall back to 1, true and false; a limit decoded
      before the failure is kept. */
  function EffectiveRenewRequest(decoded: RenewRequest, bindOk: bool): (req: RenewRequest)
    ensures bindOk ==> req == decoded
    ensures !bindOk ==> req.months == 1 && req.resetTokens && !req.extendFromNow
    ensures req.newTokenLimit == decoded.newTokenLimit
  {
    if bindOk then decoded
    else decoded.(months := 1, resetTokens := true, extendFromNow := false)
  }

  /** The renewal period must be 1 to 12 months. */
  predicate ValidRenewalMonths(months: int)
  {
    1 <= months <= 12
  }

  /** The new expiry: from now when asked to or once the date has passed,
      otherwise from the current expiry. */
  function RenewedExpiry(expiry: int, months: int, extendFromNow: bool, now: int): (r: int)
    ensures extendFromNow || now > expiry ==> r == AddMonths(now, months)
    ensures !extendFromNow && !(now > expiry) ==> r == AddMonths(expiry, months)
    ensures months >= 1 ==> r > now
    ensures months >= 1 && !extendFromNow ==> r > expiry
  {
    if extendFromNow || now > expiry then AddMonths(now, months) else AddMonths(expiry, months)
  }

  /** The `updateFields` map built by the handler. */
  function RenewSet(p: Project, req: RenewRequest, now: int): SetFields
  {
    NoFields.(
      expiryDate := Some(RenewedExpiry(p.ExpiryDate, req.months, req.extendFromNow, now)),
      status := Some(StatusActive),
      reminderSent := Some(false),
      updatedAt := Some(now),
      totalTokensUsed := if req.resetTokens then Some(0) else None,
      monthlyTokenLimit := if req.newTokenLimit > 0 then Some(req.newTokenLimit) else None)
  }

  /** What a renewal does to the stored record: active again with the
      reminder cleared, usage zeroed only on request, the quota replaced only
      by a positive new limit, and active by `IsProjectActive` whenever its
      flag is set. */
  lemma RenewalEffect(d: Doc, req: RenewRequest, now: int)
    requires ValidRenewalMonths(req.months)
    ensures var q := Apply(d, RenewSet(d.p, req, now)).p;
      q.Status == StatusActive && !q.ReminderSent &&
      (req.resetTokens ==> q.TotalTokensUsed == 0) &&
      (!req.resetTokens ==> q.TotalTokensUsed == d.p.TotalTokensUsed) &&
      (req.newTokenLimit > 0 ==> q.MonthlyTokenLimit == req.newTokenLimit) &&
      (req.newTokenLimit <= 0 ==> q.MonthlyTokenLimit == d.p.MonthlyTokenLimit) &&
      q.ExpiryDate > now &&
      (q.IsActive ==> IsProjectActive(q, now))
  {
    ApplyFields(d, RenewSet(d.p, req, now));
  }

  /** Where renewal and `Project.ExtendSubscription` part: a record stored as
      "expired" whose date is still ahead is renewed from its old expiry,
      while `ExtendSubscription` would count from now. */
  lemma RenewalDiffersFromExtend(p: Project, months: int, now: int)
    requires p.Status == StatusExpired && now <= p.ExpiryDate && months >= 1
    ensures IsExpired(p, now)
    ensures RenewedExpiry(p.ExpiryDate, months, false, now) == AddMonths(p.ExpiryDate, months)
    ensures now < p.ExpiryDate ==> RenewedExpiry(p.ExpiryDate, months, false, now) != AddMonths(now, months)
  {
  }

  /** The logged message of a renewal. */
  function RenewalMessage(months: int, name: string): string
  {
    "Subscription renewed for " + FormatInt(months) + " month(s) for project: " + name
  }

  /** `RenewSubscription`; the result is the new expiry. It succeeds exactly
      when the months are valid, the project exists and the write changed
      the record, and only then is the renewal logged. */
  method RenewSubscription(db: Database, projectID: string, decoded: RenewRequest, bindOk: bool, now: int)
    returns (r: Result<int>)
    modifies db
    ensures var req := EffectiveRenewRequest(decoded, bindOk);
      var found := GetProjectByID(old(db.projects), projectID);
      r.Ok? <==> ValidRenewalMonths(req.months) && found.Some? &&
                 UpdateOneIn(old(db.projects), projectID, RenewSet(found.value, req, now)).modified
    ensures var req := EffectiveRenewRequest(decoded, bindOk);
      var found := GetProjectByID(old(db.projects), projectID);
      if ValidRenewalMonths(req.months) && found.Some? then
        db.projects == UpdateOneIn(old(db.projects), projectID, RenewSet(found.value, req, now)).docs
      else
        db.projects == old(db.projects)
    ensures r.Err? ==> db.notifications == old(db.notifications)
    ensures r.Ok? ==>
      var req := EffectiveRenewRequest(decoded, bindOk);
      var found := GetProjectByID(old(db.projects), projectID);
      found.Some? &&
      r.value == RenewedExpiry(found.value.ExpiryDate, req.months, req.extendFromNow, now) &&
      db.notifications == old(db.notifications) +
        [Notification(found.value.ID, "renewal", RenewalMessage(req.months, found.value.Name), now, Config.NotificationSent)]
    ensures db.chatMessages == old(db.chatMessages)
  {
    var req := EffectiveRenewRequest(decoded, bindOk);
    if !ValidRenewalMonths(req.months) {
      return Err("Months must be between 1 and 12");
    }
    var found := GetProjectByID(db.projects, projectID);
    if found.None? {
      return Err(NotFound);
    }
    var p := found.value;
    var modified := db.UpdateOne(projectID, RenewSet(p, req, now));
    if !modified {
      return Err(NotFound);
    }
    var _ := Config.LogNotification(db, p.ID, "renewal", RenewalMessage(req.months, p.Name), now);
    r := Ok(RenewedExpiry(p.ExpiryDate, req.months, req.extendFromNow, now));
  }

  // -------------------------------------------------------------------
  // SuspendSubscription
  // -------------------------------------------------------------------

  /** The logged message: the reason is appended when one is given. */
  function SuspensionMessage(name: string, reason: string): (m: string)
    ensures reason == "" ==> m == "Subscription suspended for project: " + name
    ensures reason != "" ==> HasPrefix(m, "Subscription suspended for project: " + name) && |m| > |"Subscription suspended for project: " + name|
  {
    var base := "Subscription suspended for project: " + name;
    if reason != "" then base + " (Reason: " + reason + ")" else base
  }

  /** `SuspendSubscription`: suspends whatever the current status. */
  method SuspendSubscription(db: Database, projectID: string, reason: string, now: int) returns (r: Result<string>)
    modifies db
    ensures r.Ok? <==> GetProjectByID(old(db.projects), projectID).Some?
    ensures r.Err? ==> db.projects == old(db.projects) && db.notifications == old(db.notifications)
    ensures r.Ok? ==>
      var p := GetProjectByID(old(db.projects), projectID).value;
      db.projects == UpdateOneIn(old(db.projects), projectID, StatusSet(StatusSuspended, now)).docs &&
      db.notifications == old(db.notifications) + [Notification(p.ID, "suspension", SuspensionMessage(p.Name, reason), now, Config.NotificationSent)]
    ensures db.chatMessages == old(db.chatMessages)
  {
    var found := GetProjectByID(db.projects, projectID);
    if found.None? {
      return Err(NotFound);
    }
    var p := found.value;
    var _ := db.UpdateOne(projectID, StatusSet(StatusSuspended, now));
    var _ := Config.LogNotification(db, p.ID, "suspension", SuspensionMessage(p.Name, reason), now);
    r := Ok(StatusSuspended);
  }

  // -------------------------------------------------------------------
  // ReactivateSubscription
  // -------------------------------------------------------------------

  /** The guard of `ReactivateSubscription`: refused once the date has
      passed, refused when already "active"; any other stored status,
      "deleted" and "expired" included, may be reactivated. */
  function ReactivateCheck(p: Project, now: int): (err: Option<string>)
    ensures err.None? <==> !(now > p.ExpiryDate) && p.Status != StatusActive
  {
    if now > p.ExpiryDate then Some("Cannot reactivate expired subscription. Please renew first.")
    else if p.Status == StatusActive then Some("Subscription is already active")
    else None
  }

  /** Where this handler and `Project.Reactivate` part: a record stored as
      "expired" whose date is still ahead is reactivated here, while
      `Reactivate` refuses it. */
  lemma ReactivationRulesDiffer(p: Project, now: int)
    requires p.Status == StatusExpired && now <= p.ExpiryDate
    ensures ReactivateCheck(p, now).None?
    ensures IsExpired(p, now)
  {
  }

  method ReactivateSubscription(db: Database, projectID: string, now: int) returns (r: Result<string>)
    modifies db
    ensures GetProjectByID(old(db.projects), projectID).None? ==> r.Err?
    ensures r.Ok? <==> (GetProjectByID(old(db.projects), projectID).Some? &&
                        ReactivateCheck(GetProjectByID(old(db.projects), projectID).value, now).None?)
    ensures r.Err? ==> db.projects == old(db.projects) && db.notifications == old(db.notifications)
    ensures r.Ok? ==>
      var p := GetProjectByID(old(db.projects), projectID).value;
      db.projects == UpdateOneIn(old(db.projects), projectID, StatusSet(StatusActive, now)).docs &&
      db.notifications == old(db.notifications) +
        [Notification(p.ID, "reactivation", "Subscription reactivated for project: " + p.Name, now, Config.NotificationSent)]
    ensures db.chatMessages == old(db.chatMessages)
  {
    var found := GetProjectByID(db.projects, projectID);
    if found.None? {
      return Err(NotFound);
    }
    var p := found.value;
    var check := ReactivateCheck(p, now);
    if check.Some? {
      return Err(check.value);
    }
    var _ := db.UpdateOne(projectID, StatusSet(StatusActive, now));
    var _ := Config.LogNotification(db, p.ID, "reactivation", "Subscription reactivated for project: " + p.Name, now);
    r := Ok(StatusActive);
  }

  // -------------------------------------------------------------------
  // UpdateTokenLimit and ResetTokenUsage
  // -------------------------------------------------------------------

  /** The body check of `UpdateTokenLimit`: `binding:"required"` refuses a
      missing or zero `new_limit`, and a negative one is refused next. */
  function CheckNewLimit(decoded: int, bindOk: bool): (r: Result<int>)
    ensures r.Ok? <==> bindOk && decoded > 0
    ensures r.Ok? ==> r.value == decoded
  {
    if !bindOk || decoded == 0 then Err("Invalid limit data")
    else if decoded <= 0 then Err("Token limit must be greater than 0")
    else Ok(decoded)
  }

  /** The `$set` of `UpdateTokenLimit`. */
  function LimitSet(limit: int, now: int): SetFields
  {
    NoFields.(monthlyTokenLimit := Some(limit), updatedAt := Some(now))
  }

  /** `UpdateTokenLimit`: only a positive limit is ever written, success
      means the write changed the record, and the log names the record
      read back after the write. */
  method UpdateTokenLimit(db: Database, projectID: string, decoded: int, bindOk: bool, now: int) returns (r: Result<int>)
    modifies db
    ensures r.Ok? <==> CheckNewLimit(decoded, bindOk).Ok? && UpdateOneIn(old(db.projects), projectID, LimitSet(decoded, now)).modified
    ensures CheckNewLimit(decoded, bindOk).Err? ==> db.projects == old(db.projects)
    ensures CheckNewLimit(decoded, bindOk).Ok? ==>
      db.projects == UpdateOneIn(old(db.projects), projectID, LimitSet(decoded, now)).docs
    ensures r.Err? ==> db.notifications == old(db.notifications)
    ensures r.Ok? ==>
      var found := GetProjectByID(old(db.projects), projectID);
      r.value == decoded && decoded > 0 && found.Some? &&
      db.notifications == old(db.notifications) +
        [Notification(found.value.ID, "limit_update",
                      "Token limit updated to " + FormatInt(decoded) + " for project: " + found.value.Name,
                      now, Config.NotificationSent)]
    ensures db.chatMessages == old(db.chatMessages)
  {
    var check := CheckNewLimit(decoded, bindOk);
    if check.Err? {
      return Err(check.error);
    }
    ghost var before := db.projects;
    var modified := db.UpdateOne(projectID, LimitSet(decoded, now));
    if !modified {
      return Err(NotFound);
    }
    UpdateOneInKeepsIndex(before, projectID, LimitSet(decoded, now));
    var found := GetProjectByID(db.projects, projectID);
    if found.Some? {
      var _ := Config.LogNotification(db, found.value.ID, "limit_update",
                                      "Token limit updated to " + FormatInt(decoded) + " for project: " + found.value.Name, now);
    }
    r := Ok(decoded);
  }

  /** The `$set` of `ResetTokenUsage`. */
  function ResetSet(now: int): SetFields
  {
    NoFields.(totalTokensUsed := Some(0), updatedAt := Some(now))
  }

  /** A reset zeroes the usage and leaves the rest of the record as it was
      apart from `updated_at`. */
  lemma ResetChangesOnlyUsage(d: Doc, now: int)
    ensures Apply(d, ResetSet(now)).p == d.p.(TotalTokensUsed := 0, UpdatedAt := now)
    ensures d.p.MonthlyTokenLimit >= 0 ==> GetRemainingTokens(Apply(d, ResetSet(now)).p) == d.p.MonthlyTokenLimit
  {
  }

  /** `ResetTokenUsage`: success means the write changed the record, and the
      log names the record read back after the write. */
  method ResetTokenUsage(db: Database, projectID: string, now: int) returns (r: Result<int>)
    modifies db
    ensures db.projects == UpdateOneIn(old(db.projects), projectID, ResetSet(now)).docs
    ensures r.Ok? <==> UpdateOneIn(old(db.projects), projectID, ResetSet(now)).modified
    ensures r.Err? ==> db.notifications == old(db.notifications)
    ensures r.Ok? ==>
      var found := GetProjectByID(old(db.projects), projectID);
      r.value == 0 && found.Some? &&
      db.notifications == old(db.notifications) +
        [Notification(found.value.ID, "usage_reset", "Token usage reset for project: " + found.value.Name,
                      now, Config.NotificationSent)]
    ensures db.chatMessages == old(db.chatMessages)
  {
    ghost var before := db.projects;
    var modified := db.UpdateOne(projectID, ResetSet(now));
    if !modified {
      return Err(NotFound);
    }
    UpdateOneInKeepsIndex(before, projectID, ResetSet(now));
    var found := GetProjectByID(db.projects, projectID);
    if found.Some? {
      var _ := Config.LogNotification(db, found.value.ID, "usage_reset", "Token usage reset for project: " + found.value.Name, now);
    }
    r := Ok(0);
  }

  // -------------------------------------------------------------------
  // getUsageWarnings
  // -------------------------------------------------------------------

  const WarnExceeded := "Monthly token limit exceeded"
  const WarnApproaching := "Approaching monthly token limit (90%+)"
  const WarnHigh := "High token usage (80%+)"
  const WarnExpired := "Subscription has expired"
  const WarnExpiresSoon := "Subscription expires soon (3 days or less)"
  const WarnExpiresWeek := "Subscription expires within a week"

  /** The usage percentage the callers compute: 0 when there is no positive
      limit. */
  predicate UsageAtLeast(used: int, limit: int, pct: nat)
    requires pct > 0
  {
    limit > 0 && PercentAtLeast(used, limit, pct)
  }

  /** `getUsageWarnings`, with the percentage and the days until expiry
      given by the counters and instants they are computed from. */
  function GetUsageWarnings(used: int, limit: int, expiry: int, now: int): (w: seq<string>)
    ensures |w| <= 2
    ensures WarnExceeded in w <==> UsageAtLeast(used, limit, 100)
    ensures WarnApproaching in w <==> UsageAtLeast(used, limit, 90) && !UsageAtLeast(used, limit, 100)
    ensures WarnHigh in w <==> UsageAtLeast(used, limit, 80) && !UsageAtLeast(used, limit, 90)
    ensures WarnExpired in w <==> expiry <= now
    ensures WarnExpiresSoon in w <==> now < expiry <= now + 3 * Day
    ensures WarnExpiresWeek in w <==> now + 3 * Day < expiry <= now + 7 * Day
  {
    var usage :=
      if UsageAtLeast(used, limit, 100) then [WarnExceeded]
      else if UsageAtLeast(used, limit, 90) then [WarnApproaching]
      else if UsageAtLeast(used, limit, 80) then [WarnHigh]
      else [];
    var expiryWarning :=
      if expiry - now <= 0 then [WarnExpired]
      else if expiry - now <= 3 * Day then [WarnExpiresSoon]
      else if expiry - now <= 7 * Day then [WarnExpiresWeek]
      else [];
    usage + expiryWarning
  }

  /** At most one of the usage warnings is ever given. */
  lemma AtMostOneUsageWarning(used: int, limit: int, expiry: int, now: int)
    ensures var w := GetUsageWarnings(used, limit, expiry, now);
      !(WarnExceeded in w && WarnApproaching in w) &&
      !(WarnExceeded in w && WarnHigh in w) &&
      !(WarnApproaching in w && WarnHigh in w)
  {
  }
}
