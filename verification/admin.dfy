/** The admin endpoints of handlers/admin.go that decide or write: status
    validation, the older renewal and status update, the dashboard's
    statistics and pagination, and the usage report's remaining tokens. */
module Admin {
  import opened Common
  import opened ProjectModel
  import opened Store
  import Config

  /** `primitive.NilObjectID` in hex: the project id the admin log entries
      carry. */
  const NilObjectID := "000000000000000000000000"

  const ValidStatuses: seq<string> := [StatusActive, StatusSuspended, StatusExpired, StatusDeleted]

  /** The statuses an admin may set: the four the system writes. */
  predicate ValidStatus(status: string)
  {
    status in ValidStatuses
  }

  /** `isValidStatus`: the early-exit search of the fixed list. */
  method IsValidStatus(status: string) returns (ok: bool)
    ensures ok <==> ValidStatus(status)
    ensures ok <==>
      status == StatusActive || status == StatusSuspended || status == StatusExpired || status == StatusDeleted
  {
    var i := 0;
    while i < |ValidStatuses|
      invariant 0 <= i <= |ValidStatuses|
      invariant status !in ValidStatuses[..i]
    {
      if ValidStatuses[i] == status {
        return true;
      }
      i := i + 1;
    }
    assert ValidStatuses[..i] == ValidStatuses;
    return false;
  }

  // -------------------------------------------------------------------
  // RenewProject
  // -------------------------------------------------------------------

  datatype AdminRenewRequest = AdminRenewRequest(months: int, resetTokens: bool)

  /** The body as used: a failed binding means one month with a reset. */
  function EffectiveAdminRenewRequest(decoded: AdminRenewRequest, bindOk: bool): (req: AdminRenewRequest)
    ensures bindOk ==> req == decoded
    ensures !bindOk ==> req == AdminRenewRequest(1, true)
  {
    if bindOk then decoded else AdminRenewRequest(1, true)
  }

  /** The `$set` of `RenewProject`: the new expiry always counts from now. */
  function AdminRenewSet(req: AdminRenewRequest, now: int): SetFields
  {
    NoFields.(
      expiryDate := Some(AddMonths(now, req.months)),
      status := Some(StatusActive),
      reminderSent := Some(false),
      updatedAt := Some(now),
      totalTokensUsed := if req.resetTokens then Some(0) else None)
  }

  /** What the admin renewal does to a record: active, reminder cleared,
      expiry `months` after now whatever it was, usage zeroed only on
      request, quota untouched. */
  lemma AdminRenewalEffect(d: Doc, req: AdminRenewRequest, now: int)
    requires 1 <= req.months <= 12
    ensures var q := Apply(d, AdminRenewSet(req, now)).p;
      q.Status == StatusActive && !q.ReminderSent && q.ExpiryDate == AddMonths(now, req.months) &&
      (req.resetTokens ==> q.TotalTokensUsed == 0) &&
      (!req.resetTokens ==> q.TotalTokensUsed == d.p.TotalTokensUsed) &&
      q.MonthlyTokenLimit == d.p.MonthlyTokenLimit
  {
    ApplyFields(d, AdminRenewSet(req, now));
  }

  /** Counting from now, the admin renewal of a record with more than
      `months` left moves its expiry earlier. */
  lemma AdminRenewalCanShorten(d: Doc, req: AdminRenewRequest, now: int)
    requires 1 <= req.months <= 12 && d.p.ExpiryDate > AddMonths(now, req.months)
    ensures Apply(d, AdminRenewSet(req, now)).p.ExpiryDate < d.p.ExpiryDate
  {
    ApplyFields(d, AdminRenewSet(req, now));
  }

  /** The logged message of an admin renewal. */
  function AdminRenewalMessage(projectID: string, months: int): string
  {
    "Project " + projectID + " renewed for " + FormatInt(months) + " month(s)"
  }

  /** `RenewProject`; the result is the new expiry. */
  method RenewProject(db: Database, projectID: string, decoded: AdminRenewRequest, bindOk: bool, now: int)
    returns (r: Result<int>)
    modifies db
    ensures var req := EffectiveAdminRenewRequest(decoded, bindOk);
      !(1 <= req.months <= 12) ==> r.Err? && db.projects == old(db.projects) && db.notifications == old(db.notifications)
    ensures var req := EffectiveAdminRenewRequest(decoded, bindOk);
      1 <= req.months <= 12 ==>
        db.projects == UpdateOneIn(old(db.projects), projectID, AdminRenewSet(req, now)).docs &&
        (r.Ok? <==> UpdateOneIn(old(db.projects), projectID, AdminRenewSet(req, now)).modified)
    ensures r.Ok? ==>
      var req := EffectiveAdminRenewRequest(decoded, bindOk);
      r.value == AddMonths(now, req.months) &&
      db.notifications == old(db.notifications) +
        [Notification(NilObjectID, "renewal", AdminRenewalMessage(projectID, req.months), now, Config.NotificationSent)]
    ensures r.Err? ==> db.notifications == old(db.notifications)
    ensures db.chatMessages == old(db.chatMessages)
  {
    var req := EffectiveAdminRenewRequest(decoded, bindOk);
    if !(1 <= req.months <= 12) {
      return Err("Months must be between 1 and 12");
    }
    var modified := db.UpdateOne(projectID, AdminRenewSet(req, now));
    if !modified {
      return Err("Project not found");
    }
    var _ := Config.LogNotification(db, NilObjectID, "renewal", AdminRenewalMessage(projectID, req.months), now);
    r := Ok(AddMonths(now, req.months));
  }

  // -------------------------------------------------------------------
  // UpdateProjectStatus
  // -------------------------------------------------------------------

  /** The logged message of a status change: the reason is appended when
      one is given. */
  function StatusChangeMessage(projectID: string, status: string, reason: string): string
  {
    var base := "Project " + projectID + " status changed to " + status;
    if reason != "" then base + " (Reason: " + reason + ")" else base
  }

  /** `UpdateProjectStatus`: a missing or invalid status is refused before
      anything is written. */
  method UpdateProjectStatus(db: Database, projectID: string, status: string, reason: string, bindOk: bool, now: int)
    returns (r: Result<string>)
    modifies db
    ensures !bindOk || !ValidStatus(status) ==>
      r.Err? && db.projects == old(db.projects) && db.notifications == old(db.notifications)
    ensures bindOk && ValidStatus(status) ==>
      db.projects == UpdateOneIn(old(db.projects), projectID, StatusSet(status, now)).docs &&
      (r.Ok? <==> UpdateOneIn(old(db.projects), projectID, StatusSet(status, now)).modified)
    ensures r.Ok? ==>
      r.value == status &&
      db.notifications == old(db.notifications) +
        [Notification(NilObjectID, "status_change", StatusChangeMessage(projectID, status, reason), now, Config.NotificationSent)]
    ensures r.Err? ==> db.notifications == old(db.notifications)
    ensures db.chatMessages == old(db.chatMessages)
  {
    if !bindOk || status == "" {
      return Err("Invalid status data");
    }
    var valid := IsValidStatus(status);
    if !valid {
      return Err("Invalid status. Must be: active, suspended, expired, or deleted");
    }
    var modified := db.UpdateOne(projectID, StatusSet(status, now));
    if !modified {
      return Err("Project not found");
    }
    var message := "Project " + projectID + " status changed to " + status;
    if reason != "" {
      message := message + " (Reason: " + reason + ")";
    }
    assert message == StatusChangeMessage(projectID, status, reason);
    var _ := Config.LogNotification(db, NilObjectID, "status_change", message, now);
    r := Ok(status);
  }

  // -------------------------------------------------------------------
  // getProjectStatistics
  // -------------------------------------------------------------------

  /** `{"status": {"$ne": "deleted"}}`: a record without a status counts. */
  predicate CountedInTotal(d: Doc)
  {
    FStatus in d.absent || d.p.Status != StatusDeleted
  }

  /** `{"status": "active", "is_active": true}`. */
  predicate CountedActive(d: Doc)
  {
    FStatus !in d.absent && d.p.Status == StatusActive && d.p.IsActive
  }

  /** `{"status": "suspended"}`. */
  predicate CountedSuspended(d: Doc)
  {
    FStatus !in d.absent && d.p.Status == StatusSuspended
  }

  /** `{"expiry_date": {"$lt": now}, "status": {"$ne": "deleted"}}`: past
      its date, whatever its status. */
  predicate CountedExpired(d: Doc, now: int)
  {
    FExpiryDate !in d.absent && d.p.ExpiryDate < now && CountedInTotal(d)
  }

  /** `CountDocuments` with a filter. */
  function CountWhere(docs: seq<Doc>, f: Doc -> bool): (n: nat)
    ensures n <= |docs|
  {
    if docs == [] then 0
    else CountWhere(docs[..|docs| - 1], f) + (if f(docs[|docs| - 1]) then 1 else 0)
  }

  /** Two disjoint filters that both imply a third count no more than it. */
  lemma {:induction false} CountDisjointWithin(docs: seq<Doc>, a: Doc -> bool, b: Doc -> bool, c: Doc -> bool)
    requires forall d :: a(d) ==> c(d)
    requires forall d :: b(d) ==> c(d)
    requires forall d :: !(a(d) && b(d))
    ensures CountWhere(docs, a) + CountWhere(docs, b) <= CountWhere(docs, c)
    decreases |docs|
  {
    if docs != [] {
      CountDisjointWithin(docs[..|docs| - 1], a, b, c);
    }
  }

  datatype Statistics = Statistics(total: nat, active: nat, suspended: nat, expired: nat)

  /** `getProjectStatistics`: the active and the suspended are disjoint
      parts of the non-deleted total, and so are the past-date records. */
  function GetProjectStatistics(docs: seq<Doc>, now: int): (s: Statistics)
    ensures s.total == CountWhere(docs, CountedInTotal)
    ensures s.active == CountWhere(docs, CountedActive)
    ensures s.suspended == CountWhere(docs, CountedSuspended)
    ensures s.expired == CountWhere(docs, d => CountedExpired(d, now))
    ensures s.active + s.suspended <= s.total
    ensures s.expired <= s.total
    ensures s.total <= |docs|
  {
    var total := CountWhere(docs, CountedInTotal);
    var active := CountWhere(docs, CountedActive);
    var suspended := CountWhere(docs, CountedSuspended);
    var expired := CountWhere(docs, d => CountedExpired(d, now));
    CountDisjointWithin(docs, CountedActive, CountedSuspended, CountedInTotal);
    CountDisjointWithin(docs, d => CountedExpired(d, now), d => false, CountedInTotal);
    assert CountWhere(docs, d => false) >= 0;
    Statistics(total, active, suspended, expired)
  }

  /** The counting rules, one record at a time: a stored "deleted" record
      counts nowhere; a record without a status counts in the total but is
      neither active nor suspended; an "active" record whose `is_active`
      flag is off is not counted as active; and any non-deleted record past
      its date counts as expired, whatever its status. */
  lemma StatisticsOfOneMore(docs: seq<Doc>, d: Doc, now: int)
    ensures var before := GetProjectStatistics(docs, now);
      var after := GetProjectStatistics(docs + [d], now);
      (FStatus !in d.absent && d.p.Status == StatusDeleted ==> after == before) &&
      (FStatus in d.absent ==>
        after.total == before.total + 1 && after.active == before.active && after.suspended == before.suspended) &&
      (FStatus !in d.absent && d.p.Status == StatusActive && !d.p.IsActive ==>
        after.total == before.total + 1 && after.active == before.active) &&
      (FExpiryDate !in d.absent && d.p.ExpiryDate < now && !(FStatus !in d.absent && d.p.Status == StatusDeleted) ==>
        after.expired == before.expired + 1)
  {
    assert (docs + [d])[..|docs|] == docs;
  }

  // -------------------------------------------------------------------
  // GetProjectsDashboard pagination
  // -------------------------------------------------------------------

  /** A numeric query parameter read with `strconv.Atoi` and its error
      ignored: the value Atoi returns alongside the error is used, so text
      that is not a numeral reads as 0 and a numeral beyond the 64-bit
      range as the nearest bound. `None` is an absent parameter, which
      `DefaultQuery` replaces by the default text. */
  function QueryInt(query: Option<string>, default: string): (n: int)
    ensures query.Some? && Atoi(query.value).Some? ==> n == Atoi(query.value).value
    ensures query.Some? && !IsNumeral(query.value) ==> n == 0
    ensures query.Some? && IsNumeral(query.value) && NumeralValue(query.value) > MaxInt64 ==> n == MaxInt64
    ensures query.Some? && IsNumeral(query.value) && NumeralValue(query.value) < MinInt64 ==> n == MinInt64
    ensures query.None? ==> n == AtoiValue(default)
  {
    var text := if query.Some? then query.value else default;
    AtoiValue(text)
  }

  /** A page number too large for 64 bits reads as the largest one. */
  lemma QueryIntClampsHuge(n: nat)
    requires n > MaxInt64
    ensures QueryInt(Some(Decimal(n)), "1") == MaxInt64
  {
    DecimalValue(n);
  }

  /** Absent parameters mean page 1 of 20. */
  lemma QueryIntDefaults()
    ensures QueryInt(None, "1") == 1 && QueryInt(None, "20") == 20
  {
    assert Decimal(1) == "1";
    AtoiDecimal(1);
    assert Decimal(20) == Decimal(2) + [DigitChar(0)];
    assert Decimal(20) == "20";
    AtoiDecimal(20);
  }

  datatype Pagination = Pagination(skip: int, totalPages: int, hasNext: bool, hasPrev: bool)

  /** The page arithmetic. The store refuses a `$limit` that is not
      positive and a negative `$skip`, so such a request fails before the
      unguarded division is reached. */
  function Paginate(page: int, limit: int, total: nat): (r: Result<Pagination>)
    ensures r.Ok? <==> limit > 0 && page >= 1
    ensures r.Ok? ==> r.value.skip == (page - 1) * limit && r.value.skip >= 0
    ensures r.Ok? ==> (r.value.totalPages - 1) * limit < total <= r.value.totalPages * limit || (total == 0 && r.value.totalPages == 0)
    ensures r.Ok? ==> (r.value.hasNext <==> page < r.value.totalPages)
    ensures r.Ok? ==> (r.value.hasPrev <==> page > 1)
  {
    if limit <= 0 || page < 1 then Err("Failed to get projects")
    else
      var skip := (page - 1) * limit;
      var totalPages := GoDiv(total + limit - 1, limit);
      Ok(Pagination(skip, totalPages, page < totalPages, page > 1))
  }

  lemma MulLeft(a: int, b: int, c: int)
    requires a <= b && c > 0
    ensures a * c <= b * c
  {
    assert b * c - a * c == (b - a) * c;
  }

  /** Page `page` ends before the last record exactly when it is not the
      last page. */
  lemma PageBeforeEnd(page: int, limit: int, pages: int, total: nat)
    requires limit > 0 && page >= 1
    requires (pages - 1) * limit < total <= pages * limit || (total == 0 && pages == 0)
    ensures page < pages <==> page * limit < total
  {
    if page < pages {
      MulLeft(page, pages - 1, limit);
    } else {
      MulLeft(pages, page, limit);
      MulLeft(1, page, limit);
    }
  }

  /** There is a next page exactly when records remain beyond this one. */
  lemma PaginateHasNextIffMore(page: int, limit: int, total: nat)
    requires limit > 0 && page >= 1
    ensures Paginate(page, limit, total).value.hasNext <==> Paginate(page, limit, total).value.skip + limit < total
  {
    var p := Paginate(page, limit, total).value;
    assert p.skip + limit == page * limit;
    PageBeforeEnd(page, limit, p.totalPages, total);
  }

  // -------------------------------------------------------------------
  // GetProjectUsage
  // -------------------------------------------------------------------

  /** The remaining tokens of the usage report: not clamped, negative once
      usage passes the quota; clamping it at 0 gives `GetRemainingTokens`. */
  function AdminRemainingTokens(p: Project): (r: int)
    ensures p.TotalTokensUsed > p.MonthlyTokenLimit ==> r < 0
    ensures GetRemainingTokens(p) == if r < 0 then 0 else r
  {
    p.MonthlyTokenLimit - p.TotalTokensUsed
  }
}
