/** The subscription gates of middleware/subscription.go that guard the
    chat route (`SubscriptionValidator`, `TokenLimitValidator`,
    `RateLimitValidator`), the validator behind the first of them, the
    maintenance sweep, and the route classifiers. The write that the
    validator starts in a goroutine is modelled as made before it answers. */
module SubscriptionMiddleware {
  import opened Common
  import opened ProjectModel
  import opened Store
  import Config
  import AuthMiddleware

  const AdminPrefixes: seq<string> := ["/api/admin", "/admin", "/dashboard"]
  const ChatFragments: seq<string> := ["/api/chat", "/api/projects/", "/chat", "/message"]

  /** `isAdminRoute`: a prefix test. */
  predicate IsAdminRoute(path: string)
  {
    AnyPrefix(path, AdminPrefixes)
  }

  lemma IsAdminRouteIff(path: string)
    ensures IsAdminRoute(path) <==> exists i :: 0 <= i < |AdminPrefixes| && HasPrefix(path, AdminPrefixes[i])
  {
    AnyPrefixIff(path, AdminPrefixes);
  }

  /** `isChatEndpoint`: a substring test, so any path that mentions a
      fragment anywhere counts. */
  predicate IsChatEndpoint(path: string)
  {
    AnyContains(path, ChatFragments)
  }

  lemma IsChatEndpointIff(path: string)
    ensures IsChatEndpoint(path) <==> exists i :: 0 <= i < |ChatFragments| && Contains(path, ChatFragments[i])
  {
    AnyContainsIff(path, ChatFragments);
  }

  /** The chat route of every project is a chat endpoint, and is not an
      admin route. */
  lemma ProjectChatRouteIsChatEndpoint(projectID: string)
    ensures IsChatEndpoint("/api/projects/" + projectID + "/chat")
    ensures !IsAdminRoute("/api/projects/" + projectID + "/chat")
  {
    var path := "/api/projects/" + projectID + "/chat";
    assert path[..|"/api/projects/"|] == "/api/projects/";
    assert HasPrefix(path, "/api/projects/");
    assert IsChatEndpoint(path) by {
      assert Contains(path, ChatFragments[1]);
    }
    IsAdminRouteIff(path);
    assert !HasPrefix(path, "/api/admin") by { assert path[5] == 'p'; }
    assert !HasPrefix(path, "/admin") by { assert path[1] == 'a' && path[2] == 'p'; }
    assert !HasPrefix(path, "/dashboard") by { assert path[1] == 'a'; }
  }

  // -------------------------------------------------------------------
  // validateProjectSubscription
  // -------------------------------------------------------------------

  const MsgNotFound := "Project not found or invalid"
  const MsgExpired := "Your subscription has expired. Please renew to continue"
  const MsgSuspended := "Your account is suspended. Please contact support"
  const MsgDeleted := "This project has been deleted"
  const MsgInactive := "Your account is inactive. Please contact support"
  const MsgUnavailable := "This project is no longer available"

  /** The middleware's own status messages: the same wording as the chat
      handler's, without the closing period. */
  function StatusBlockMessage(status: string): (m: string)
    ensures status == StatusExpired ==> m == MsgExpired
    ensures status == StatusSuspended ==> m == MsgSuspended
    ensures status == StatusDeleted ==> m == MsgDeleted
    ensures status !in {StatusExpired, StatusSuspended, StatusDeleted} ==> m == MsgInactive
  {
    if status == StatusExpired then MsgExpired
    else if status == StatusSuspended then MsgSuspended
    else if status == StatusDeleted then MsgDeleted
    else MsgInactive
  }

  /** `validateProjectSubscription`: stored status, then date, then the
      `IsActive` flag; the quota is not looked at. */
  function ValidateProjectSubscription(p: Project, now: int): (d: Decision)
    ensures d.Allowed? <==> p.Status == StatusActive && now <= p.ExpiryDate && p.IsActive
    ensures p.Status != StatusActive ==> d == Blocked(StatusBlockMessage(p.Status))
    ensures p.Status == StatusActive && now > p.ExpiryDate ==> d == Blocked(MsgExpired)
    ensures p.Status == StatusActive && now <= p.ExpiryDate && !p.IsActive ==> d == Blocked(MsgUnavailable)
  {
    if p.Status != StatusActive then Blocked(StatusBlockMessage(p.Status))
    else if now > p.ExpiryDate then Blocked(MsgExpired)
    else if !p.IsActive then Blocked(MsgUnavailable)
    else Allowed
  }

  /** The validator agrees with `IsProjectActive` except at the expiry
      instant itself, where it still lets the record through. */
  lemma ValidatorIsProjectActive(p: Project, now: int)
    ensures ValidateProjectSubscription(p, now).Allowed? <==>
      IsProjectActive(p, now) || (now == p.ExpiryDate && p.Status == StatusActive && p.IsActive)
  {
  }

  /** The validator passes a record whatever its usage. */
  lemma ValidatorIgnoresQuota(p: Project, used: int, now: int)
    ensures ValidateProjectSubscription(p.(TotalTokensUsed := used), now) == ValidateProjectSubscription(p, now)
  {
  }

  /** The validator with its lookup and its status write. */
  method ValidateProjectSubscriptionIn(db: Database, projectID: string, now: int) returns (r: Result<Project>)
    modifies db
    ensures FindOne(old(db.projects), projectID).None? ==> r == Err(MsgNotFound) && db.projects == old(db.projects)
    ensures FindOne(old(db.projects), projectID).Some? ==>
      var p := FindOne(old(db.projects), projectID).value;
      (r.Ok? <==> ValidateProjectSubscription(p, now).Allowed?) &&
      (r.Ok? ==> r.value == p) &&
      (r.Err? ==> r.error == ValidateProjectSubscription(p, now).reason) &&
      (p.Status == StatusActive && now > p.ExpiryDate ==>
         db.projects == UpdateOneIn(old(db.projects), projectID, StatusSet(StatusExpired, now)).docs) &&
      (!(p.Status == StatusActive && now > p.ExpiryDate) ==> db.projects == old(db.projects))
    ensures db.notifications == old(db.notifications) && db.chatMessages == old(db.chatMessages)
  {
    var found := FindOne(db.projects, projectID);
    if found.None? {
      return Err(MsgNotFound);
    }
    var p := found.value;
    var d := ValidateProjectSubscription(p, now);
    if p.Status == StatusActive && now > p.ExpiryDate {
      var _ := db.UpdateOne(projectID, StatusSet(StatusExpired, now));
    }
    if d.Blocked? {
      return Err(d.reason);
    }
    r := Ok(p);
  }

  // -------------------------------------------------------------------
  // The gates
  // -------------------------------------------------------------------

  /** What a gate does with the request: pass it on without looking,
      pass it on with the validated record in the context, or stop it. */
  datatype Gate = PassThrough | Validated(project: Project) | Rejected(reason: string)

  /** `SubscriptionValidator`: no project id (neither `:projectId` nor
      `:id`) or an admin path skips validation. */
  method SubscriptionValidator(db: Database, projectIdParam: string, idParam: string, path: string, now: int)
    returns (g: Gate)
    modifies db
    ensures (projectIdParam == "" && idParam == "") || IsAdminRoute(path) ==> g == PassThrough && db.projects == old(db.projects)
    ensures g.Validated? ==>
      var id := if projectIdParam != "" then projectIdParam else idParam;
      FindOne(old(db.projects), id) == Some(g.project) &&
      ValidateProjectSubscription(g.project, now).Allowed?
    ensures g.Validated? ==> g.project.Status == StatusActive && g.project.IsActive && now <= g.project.ExpiryDate
    ensures db.notifications == old(db.notifications) && db.chatMessages == old(db.chatMessages)
  {
    var projectID := if projectIdParam != "" then projectIdParam else idParam;
    if projectID == "" || IsAdminRoute(path) {
      return PassThrough;
    }
    var r := ValidateProjectSubscriptionIn(db, projectID, now);
    if r.Err? {
      return Rejected(r.error);
    }
    g := Validated(r.value);
  }

  /** What `TokenLimitValidator` does: go on (with or without the usage
      warning header) or stop. */
  datatype TokenGate = Continue(usageWarning: bool) | Abort(reason: string)

  const LimitExceeded := "limit_exceeded"

  /** `TokenLimitValidator`: on chat endpoints, stops a request without a
      record in the context or whose usage has reached the quota, and flags
      usage of 90% or more. */
  function TokenLimitValidator(path: string, project: Option<Project>): (g: TokenGate)
    ensures !IsChatEndpoint(path) ==> g == Continue(false)
    ensures IsChatEndpoint(path) && project.None? ==> g.Abort?
    ensures IsChatEndpoint(path) && project.Some? ==>
      (g == Abort(LimitExceeded) <==> project.value.TotalTokensUsed >= project.value.MonthlyTokenLimit)
    ensures g == Continue(true) ==>
      project.Some? && project.value.TotalTokensUsed < project.value.MonthlyTokenLimit
  {
    if !IsChatEndpoint(path) then Continue(false)
    else if project.None? then Abort("Project not found in context")
    else
      var p := project.value;
      if p.TotalTokensUsed >= p.MonthlyTokenLimit then Abort(LimitExceeded)
      else Continue(PercentAtLeast(p.TotalTokensUsed, p.MonthlyTokenLimit, 90))
  }

  /** With a positive quota, the warning is given from nine tenths of it up
      to the quota itself. */
  lemma TokenWarningBand(path: string, p: Project)
    requires IsChatEndpoint(path) && p.MonthlyTokenLimit > 0
    ensures TokenLimitValidator(path, Some(p)) == Continue(true) <==>
      10 * p.TotalTokensUsed >= 9 * p.MonthlyTokenLimit && p.TotalTokensUsed < p.MonthlyTokenLimit
  {
  }

  // -------------------------------------------------------------------
  // checkProjectRateLimit and RateLimitValidator
  // -------------------------------------------------------------------

  /** The per-minute quota named for a status. */
  function ProjectRateQuota(status: string): int
  {
    if status == StatusActive then 60 else 30
  }

  /** `checkProjectRateLimit` as written: the answer of `checkRateLimit`
      is negated. */
  function CheckProjectRateLimitAsWritten(p: Project, clientIP: string): bool
  {
    if p.Status == StatusSuspended then false
    else !AuthMiddleware.CheckRateLimit(p.ProjectID + ":" + clientIP, ProjectRateQuota(p.Status), Minute)
  }

  /** The discrepancy: since `checkRateLimit` always allows, the check as
      written refuses every project. */
  lemma CheckProjectRateLimitAsWrittenRefusesAll(p: Project, clientIP: string)
    ensures !CheckProjectRateLimitAsWritten(p, clientIP)
  {
  }

  /** `checkProjectRateLimit` as intended: suspended projects are refused,
      the others get the answer of `checkRateLimit`. */
  function CheckProjectRateLimit(p: Project, clientIP: string): (ok: bool)
    ensures ok <==> p.Status != StatusSuspended
  {
    if p.Status == StatusSuspended then false
    else AuthMiddleware.CheckRateLimit(p.ProjectID + ":" + clientIP, ProjectRateQuota(p.Status), Minute)
  }

  const MsgRateLimited := "Rate limit exceeded. Please wait before sending another message."

  /** `RateLimitValidator`, with the intended check. */
  function RateLimitValidator(path: string, project: Option<Project>, clientIP: string): (d: Decision)
    ensures d.Blocked? <==> IsChatEndpoint(path) && project.Some? && project.value.Status == StatusSuspended
  {
    if !IsChatEndpoint(path) || project.None? then Allowed
    else if !CheckProjectRateLimit(project.value, clientIP) then Blocked(MsgRateLimited)
    else Allowed
  }

  /** `RateLimitValidator` as written. */
  function RateLimitValidatorAsWritten(path: string, project: Option<Project>, clientIP: string): Decision
  {
    if !IsChatEndpoint(path) || project.None? then Allowed
    else if !CheckProjectRateLimitAsWritten(project.value, clientIP) then Blocked(MsgRateLimited)
    else Allowed
  }

  /** On the chat route, a request that the subscription gate let through
      and that has quota left passes the token gate and reaches the rate
      gate with its record; as written it is refused there, and with the
      intended check it passes. */
  lemma ChatRouteRateLimited(db: seq<Doc>, projectID: string, clientIP: string, now: int)
    requires FindOne(db, projectID).Some?
    requires ValidateProjectSubscription(FindOne(db, projectID).value, now).Allowed?
    requires FindOne(db, projectID).value.TotalTokensUsed < FindOne(db, projectID).value.MonthlyTokenLimit
    ensures var path := "/api/projects/" + projectID + "/chat";
      TokenLimitValidator(path, FindOne(db, projectID)).Continue? &&
      RateLimitValidatorAsWritten(path, FindOne(db, projectID), clientIP) == Blocked(MsgRateLimited) &&
      RateLimitValidator(path, FindOne(db, projectID), clientIP) == Allowed
  {
    ProjectChatRouteIsChatEndpoint(projectID);
  }

  // -------------------------------------------------------------------
  // performSubscriptionMaintenance
  // -------------------------------------------------------------------

  /** `performSubscriptionMaintenance`: the same filter and update as
      `UpdateExpiredProjects`. */
  method PerformSubscriptionMaintenance(db: Database, now: int)
    modifies db
    ensures db.projects == Config.Sweep(old(db.projects), now)
    ensures db.notifications == old(db.notifications) && db.chatMessages == old(db.chatMessages)
  {
    db.projects := Config.Sweep(db.projects, now);
  }
}
