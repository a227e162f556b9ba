/** The chat path of handlers/chat.go: the access evaluator
    `getProjectWithValidation`, the charge with its threshold notifications
    `updateProjectTokenUsage`, the charge ordering of `ProjectChatMessage`,
    the user-facing error classification, and the small parsing and
    reordering steps of chat history and rating. The model call is a
    parameter: `None` when it fails, the reply and its token count
    otherwise. */
module Chat {
  import opened Common
  import opened ProjectModel
  import opened Store
  import Config

  const MsgNotFound := "Project not found or invalid."
  const MsgExpired := "Your subscription has expired. Please renew to continue."
  const MsgSuspended := "Your account is suspended. Please contact support."
  const MsgDeleted := "This project has been deleted."
  const MsgInactive := "Your account is inactive. Please contact support."
  const MsgLimitReached := "Monthly usage limit reached. Please upgrade your plan."

  // -------------------------------------------------------------------
  // getProjectWithValidation
  // -------------------------------------------------------------------

  /** The message for a stored status other than "active". */
  function StatusBlockMessage(status: string): (m: string)
    ensures status == StatusExpired ==> m == MsgExpired
    ensures status == StatusSuspended ==> m == MsgSuspended
    ensures status == StatusDeleted ==> m == MsgDeleted
    ensures status !in {StatusExpired, StatusSuspended, StatusDeleted} ==> m == MsgInactive
  {
    if status == StatusExpired then MsgExpired
    else if status == StatusSuspended then MsgSuspended
    else if status == StatusDeleted then MsgDeleted
    else MsgInactive
  }

  /** The evaluator: stored status first, then the date, then the quota.
      It lets a request through exactly when the record is "active", the
      date is not past and some quota is left. */
  function EvaluateChat(p: Project, now: int): (d: Decision)
    ensures d.Allowed? <==> p.Status == StatusActive && now <= p.ExpiryDate && p.TotalTokensUsed < p.MonthlyTokenLimit
    ensures p.Status != StatusActive ==> d == Blocked(StatusBlockMessage(p.Status))
    ensures p.Status == StatusActive && now > p.ExpiryDate ==> d == Blocked(MsgExpired)
    ensures p.Status == StatusActive && now <= p.ExpiryDate && p.TotalTokensUsed >= p.MonthlyTokenLimit ==>
      d == Blocked(MsgLimitReached)
  {
    if p.Status != StatusActive then Blocked(StatusBlockMessage(p.Status))
    else if now > p.ExpiryDate then Blocked(MsgExpired)
    else if p.TotalTokensUsed >= p.MonthlyTokenLimit then Blocked(MsgLimitReached)
    else Allowed
  }

  /** Away from the expiry instant, and on a record whose `IsActive` flag is
      set, the evaluator agrees with `CanUseTokens` for one more token. */
  lemma EvaluateChatIsCanUseTokens(p: Project, now: int)
    requires p.IsActive && now != p.ExpiryDate
    ensures EvaluateChat(p, now).Allowed? <==> CanUseTokens(p, 1, now)
  {
  }

  /** Where the evaluator and the record's own predicates part: it ignores
      the `IsActive` flag, and at the expiry instant itself it still lets an
      "active" record with quota through although `IsProjectActive` is
      false. */
  lemma EvaluateChatDiffersFromIsProjectActive(p: Project)
    requires p.Status == StatusActive && p.TotalTokensUsed < p.MonthlyTokenLimit
    ensures EvaluateChat(p, p.ExpiryDate).Allowed? && !IsProjectActive(p, p.ExpiryDate)
    ensures !p.IsActive ==> forall now :: now <= p.ExpiryDate ==> EvaluateChat(p, now).Allowed?
  {
  }

  /** Every request the evaluator lets through is for a record that is not
      expired. */
  lemma EvaluateChatNeverAllowsExpired(p: Project, now: int)
    requires EvaluateChat(p, now).Allowed?
    ensures !IsExpired(p, now) && GetRemainingTokens(p) > 0
  {
  }

  /** `getProjectWithValidation`: an "active" record found past its date is
      written as "expired" before the refusal. */
  method GetProjectWithValidation(db: Database, projectID: string, now: int) returns (r: Result<Project>)
    modifies db
    ensures FindOne(old(db.projects), projectID).None? ==> r == Err(MsgNotFound) && db.projects == old(db.projects)
    ensures FindOne(old(db.projects), projectID).Some? ==>
      var p := FindOne(old(db.projects), projectID).value;
      (r.Ok? <==> EvaluateChat(p, now).Allowed?) &&
      (r.Ok? ==> r.value == p) &&
      (r.Err? ==> r.error == EvaluateChat(p, now).reason) &&
      (p.Status == StatusActive && now > p.ExpiryDate ==>
         db.projects == UpdateOneIn(old(db.projects), projectID, StatusSet(StatusExpired, now)).docs) &&
      (!(p.Status == StatusActive && now > p.ExpiryDate) ==> db.projects == old(db.projects))
    ensures db.notifications == old(db.notifications) && db.chatMessages == old(db.chatMessages)
  {
    var found := FindOne(db.projects, projectID);
    if found.None? {
      return Err(MsgNotFound);
    }
    var p := found.value;
    if p.Status != StatusActive {
      return Err(StatusBlockMessage(p.Status));
    }
    if now > p.ExpiryDate {
      var _ := db.UpdateOne(projectID, StatusSet(StatusExpired, now));
      return Err(MsgExpired);
    }
    if p.TotalTokensUsed >= p.MonthlyTokenLimit {
      return Err(MsgLimitReached);
    }
    r := Ok(p);
  }

  // -------------------------------------------------------------------
  // updateProjectTokenUsage: charge, then at most one notification
  // -------------------------------------------------------------------

  const KindMonthlyLimit := "monthly_limit"
  const KindUsageWarning := "usage_warning"

  /** A notification to attempt: its type and its deduplication window. */
  datatype Alert = Alert(kind: string, windowHours: int)

  /** The threshold policy on the new total: at 100% the limit notice, from
      80% the warning, below that nothing. The percentage is
      `float64(total) / float64(limit) * 100`, so a zero limit reads as
      +Inf for a positive total and as NaN for a zero one. */
  function ThresholdAlert(newTotal: int, limit: int): (a: Option<Alert>)
    ensures a.Some? ==> a.value == Alert(KindMonthlyLimit, 24) || a.value == Alert(KindUsageWarning, 12)
    ensures a == Some(Alert(KindMonthlyLimit, 24)) <==> PercentAtLeast(newTotal, limit, 100)
  {
    if PercentAtLeast(newTotal, limit, 100) then Some(Alert(KindMonthlyLimit, 24))
    else if PercentAtLeast(newTotal, limit, 80) then Some(Alert(KindUsageWarning, 12))
    else None
  }

  /** For a positive limit the policy in integers: the limit notice once the
      total reaches the limit, the warning from four fifths of it, nothing
      below. */
  lemma ThresholdAlertPositiveLimit(newTotal: int, limit: int)
    requires limit > 0
    ensures ThresholdAlert(newTotal, limit) == Some(Alert(KindMonthlyLimit, 24)) <==> newTotal >= limit
    ensures ThresholdAlert(newTotal, limit) == Some(Alert(KindUsageWarning, 12)) <==> 5 * newTotal >= 4 * limit && newTotal < limit
    ensures ThresholdAlert(newTotal, limit).None? <==> 5 * newTotal < 4 * limit
  {
  }

  /** With no quota at all, any positive total triggers the limit notice
      and a zero total triggers nothing. */
  lemma ThresholdAlertZeroLimit(newTotal: int)
    ensures newTotal > 0 ==> ThresholdAlert(newTotal, 0) == Some(Alert(KindMonthlyLimit, 24))
    ensures newTotal <= 0 ==> ThresholdAlert(newTotal, 0).None?
  {
  }

  /** The notification a charge logs: the threshold's choice, unless one of
      that type was logged for the project within its window. */
  function ChargeNotification(log: seq<Notification>, p: Project, newTotal: int, now: int): (a: Option<Alert>)
    ensures a.Some? ==> ThresholdAlert(newTotal, p.MonthlyTokenLimit) == a
    ensures a.Some? ==> !Config.RecentlySent(log, p.ID, a.value.kind, a.value.windowHours, now)
    ensures a.None? && ThresholdAlert(newTotal, p.MonthlyTokenLimit).Some? ==>
      var t := ThresholdAlert(newTotal, p.MonthlyTokenLimit).value;
      Config.RecentlySent(log, p.ID, t.kind, t.windowHours, now)
  {
    match ThresholdAlert(newTotal, p.MonthlyTokenLimit)
    case None => None
    case Some(a) => if Config.RecentlySent(log, p.ID, a.kind, a.windowHours, now) then None else Some(a)
  }

  /** Once a notification is logged, no charge within its window logs the
      same type again for that project, whatever the new total, the
      project's current quota or the entries logged in between. */
  lemma NoRepeatedNotification(log: seq<Notification>, p: Project, total1: int, message: string, now: int,
                               between: seq<Notification>, p2: Project, total2: int, later: int)
    requires ChargeNotification(log, p, total1, now).Some?
    requires p2.ID == p.ID
    ensures var a := ChargeNotification(log, p, total1, now).value;
      var log' := log + [Notification(p.ID, a.kind, message, now, Config.NotificationSent)] + between;
      now <= later <= now + a.windowHours * Hour && ChargeNotification(log', p2, total2, later).Some? ==>
        ChargeNotification(log', p2, total2, later).value.kind != a.kind
  {
    var a := ChargeNotification(log, p, total1, now).value;
    var log' := log + [Notification(p.ID, a.kind, message, now, Config.NotificationSent)] + between;
    if now <= later <= now + a.windowHours * Hour {
      assert log'[|log|] == Notification(p.ID, a.kind, message, now, Config.NotificationSent);
      Config.RecentlySentIff(log', p.ID, a.kind, a.windowHours, later);
    }
  }

  function AlertMessage(a: Alert, name: string): string
  {
    if a.kind == KindMonthlyLimit then "Monthly token limit reached for project: " + name
    else "Token usage warning for project: " + name
  }

  /** `updateProjectTokenUsage`, with the notification step run right after
      the charge. */
  method UpdateProjectTokenUsage(db: Database, projectID: string, tokens: int, now: int) returns (err: Option<string>)
    modifies db
    ensures err.Some? <==> FindOne(old(db.projects), projectID).None?
    ensures err.Some? ==> db.projects == old(db.projects) && db.notifications == old(db.notifications)
    ensures err.None? ==>
      var p := FindOne(old(db.projects), projectID).value;
      db.projects == IncrementOneIn(old(db.projects), projectID, tokens, Some(now)) &&
      db.notifications == old(db.notifications) +
        (match ChargeNotification(old(db.notifications), p, p.TotalTokensUsed + tokens, now)
         case None => []
         case Some(a) => [Notification(p.ID, a.kind, AlertMessage(a, p.Name), now, Config.NotificationSent)])
    ensures db.chatMessages == old(db.chatMessages)
  {
    var found := FindOne(db.projects, projectID);
    if found.None? {
      return Some("failed to get project");
    }
    var p := found.value;
    var newTotal := p.TotalTokensUsed + tokens;
    db.IncrementUsage(projectID, tokens, Some(now));
    var alert := ThresholdAlert(newTotal, p.MonthlyTokenLimit);
    if alert.Some? {
      var a := alert.value;
      var recent, e := Config.WasNotificationRecentlySent(db, p.ID, a.kind, a.windowHours, now);
      if e.None? && !recent {
        var _ := Config.LogNotification(db, p.ID, a.kind, AlertMessage(a, p.Name), now);
      }
    }
    err := None;
  }

  /** The stored counter grows by exactly the charged tokens. */
  lemma ChargeAddsExactly(docs: seq<Doc>, projectID: string, tokens: int, now: Option<int>)
    requires FindIndex(docs, projectID).Some? && ZeroWhereAbsent(docs[FindIndex(docs, projectID).value])
    ensures var i := FindIndex(docs, projectID).value;
      IncrementOneIn(docs, projectID, tokens, now)[i].p.TotalTokensUsed == docs[i].p.TotalTokensUsed + tokens
    ensures FindOne(IncrementOneIn(docs, projectID, tokens, now), projectID).Some?
  {
    var i := FindIndex(docs, projectID).value;
    var r := IncrementOneIn(docs, projectID, tokens, now);
    assert HasProjectId(r[i], projectID);
    assert FindIndex(r, projectID).Some?;
  }

  // -------------------------------------------------------------------
  // ProjectChatMessage
  // -------------------------------------------------------------------

  /** What the model call returns on success. */
  datatype Reply = Reply(response: string, tokens: int)

  datatype ChatReply = ChatReply(response: string, tokensUsed: int, totalTokens: int, limit: int)

  /** `ProjectChatMessage`: the counter is charged and the exchange stored
      only after the model has answered. */
  method ProjectChatMessage(db: Database, projectID: string, message: string, sessionID: string, userID: string,
                            reply: Option<Reply>, now: int)
    returns (r: Result<ChatReply>)
    modifies db
    ensures r.Ok? <==> message != "" && FindOne(old(db.projects), projectID).Some? && reply.Some?
    ensures r.Err? ==> db.projects == old(db.projects) && db.chatMessages == old(db.chatMessages)
    ensures r.Ok? ==>
      var p := FindOne(old(db.projects), projectID).value;
      db.projects == IncrementOneIn(old(db.projects), projectID, reply.value.tokens, None) &&
      db.chatMessages == old(db.chatMessages) +
        [ChatMessage(projectID, sessionID, userID, message, reply.value.response, reply.value.tokens, now)] &&
      r.value == ChatReply(reply.value.response, reply.value.tokens, p.TotalTokensUsed + reply.value.tokens, p.MonthlyTokenLimit)
    ensures db.notifications == old(db.notifications)
  {
    if message == "" {
      return Err("Invalid message data");
    }
    var found := FindOne(db.projects, projectID);
    if found.None? {
      return Err("Project not found");
    }
    var p := found.value;
    if reply.None? {
      return Err("Failed to generate response");
    }
    var answer := reply.value;
    db.IncrementUsage(projectID, answer.tokens, None);
    db.chatMessages := db.chatMessages + [ChatMessage(projectID, sessionID, userID, message, answer.response, answer.tokens, now)];
    r := Ok(ChatReply(answer.response, answer.tokens, p.TotalTokensUsed + answer.tokens, p.MonthlyTokenLimit));
  }

  // -------------------------------------------------------------------
  // getErrorResponse
  // -------------------------------------------------------------------

  const ReplyHighDemand := "I'm experiencing high demand right now. Please try again in a moment."
  const ReplyAuth := "I'm having authentication issues. Please contact support."
  const ReplyTimeout := "I'm taking longer than usual to respond. Please try a shorter question."
  const ReplyNetwork := "I'm having connectivity issues. Please try again later."
  const ReplyGeneric := "I'm having trouble answering just now. Please try again later."

  predicate IsQuotaError(e: string) { Contains(e, "quota") || Contains(e, "rate limit") }
  predicate IsAuthError(e: string) { Contains(e, "authentication") || Contains(e, "unauthorized") }
  predicate IsTimeoutError(e: string) { Contains(e, "timeout") }
  predicate IsNetworkError(e: string) { Contains(e, "network") || Contains(e, "connection") }

  /** `getErrorResponse`: the first class that matches, in a fixed order,
      picks one of five fixed replies. */
  function GetErrorResponse(e: string): (r: string)
    ensures r in {ReplyHighDemand, ReplyAuth, ReplyTimeout, ReplyNetwork, ReplyGeneric}
    ensures r == ReplyHighDemand <==> IsQuotaError(e)
    ensures r == ReplyAuth <==> !IsQuotaError(e) && IsAuthError(e)
    ensures r == ReplyTimeout <==> !IsQuotaError(e) && !IsAuthError(e) && IsTimeoutError(e)
    ensures r == ReplyNetwork <==> !IsQuotaError(e) && !IsAuthError(e) && !IsTimeoutError(e) && IsNetworkError(e)
  {
    if IsQuotaError(e) then ReplyHighDemand
    else if IsAuthError(e) then ReplyAuth
    else if IsTimeoutError(e) then ReplyTimeout
    else if IsNetworkError(e) then ReplyNetwork
    else ReplyGeneric
  }

  /** A quota error that also mentions a timeout is still reported as high
      demand: the order of the tests decides. */
  lemma ErrorResponseOrder(prefix: string, suffix: string)
    ensures GetErrorResponse(prefix + "quota" + suffix + "timeout") == ReplyHighDemand
  {
    ContainsAt(prefix + "quota" + suffix + "timeout", "quota", |prefix|);
  }

  // -------------------------------------------------------------------
  // GetChatHistory and RateMessage
  // -------------------------------------------------------------------

  const DefaultHistoryLimit := 50
  const MaxHistoryLimit := 100

  /** The `limit` query of `GetChatHistory`: a parsed value in 1..100, or
      50 for an absent, unparsable or out-of-range one. */
  function HistoryLimit(query: string): (n: int)
    ensures 1 <= n <= MaxHistoryLimit
    ensures query != "" && Atoi(query).Some? && 1 <= Atoi(query).value <= MaxHistoryLimit ==> n == Atoi(query).value
    ensures !(query != "" && Atoi(query).Some? && 1 <= Atoi(query).value <= MaxHistoryLimit) ==> n == DefaultHistoryLimit
  {
    if query != "" then
      match Atoi(query)
      case Some(v) => if v > 0 && v <= MaxHistoryLimit then v else DefaultHistoryLimit
      case None => DefaultHistoryLimit
    else DefaultHistoryLimit
  }

  /** Every limit from 1 to 100 written in decimal is taken as asked. */
  lemma HistoryLimitAcceptsRange(n: nat)
    requires 1 <= n <= MaxHistoryLimit
    ensures HistoryLimit(Decimal(n)) == n
  {
    AtoiDecimal(n);
  }

  /** The reverse of a sequence. */
  function Reversed<T>(s: seq<T>): (r: seq<T>)
    ensures |r| == |s|
    ensures forall k :: 0 <= k < |s| ==> r[k] == s[|s| - 1 - k]
  {
    if s == [] then [] else Reversed(s[1..]) + [s[0]]
  }

  lemma ReversedTwice<T>(s: seq<T>)
    ensures Reversed(Reversed(s)) == s
  {
  }

  /** The two-index swap loop that puts the newest-first page into
      chronological order. */
  method ReverseMessages<T>(messages: array<T>)
    modifies messages
    ensures messages[..] == Reversed(old(messages[..]))
  {
    var i, j := 0, messages.Length - 1;
    while i < j
      invariant 0 <= i && i + j == messages.Length - 1 && i <= j + 1
      invariant forall k :: 0 <= k < i ==> messages[k] == old(messages[messages.Length - 1 - k])
      invariant forall k :: j < k < messages.Length ==> messages[k] == old(messages[messages.Length - 1 - k])
      invariant forall k :: i <= k <= j ==> messages[k] == old(messages[k])
    {
      messages[i], messages[j] := messages[j], messages[i];
      i, j := i + 1, j - 1;
    }
  }

  /** `primitive.ObjectIDFromHex`: exactly 24 hexadecimal digits. */
  predicate IsObjectIDHex(s: string)
  {
    |s| == 24 && forall i :: 0 <= i < |s| ==> IsDigit(s[i]) || 'a' <= s[i] <= 'f' || 'A' <= s[i] <= 'F'
  }

  /** The checks of `RateMessage` before the store is touched. */
  function ValidateRating(rating: string, bindOk: bool, messageID: string): (r: Result<string>)
    ensures r.Ok? <==> bindOk && (rating == "positive" || rating == "negative") && IsObjectIDHex(messageID)
    ensures r.Ok? ==> r.value == rating
  {
    if !bindOk || rating == "" then Err("Invalid rating data")
    else if rating != "positive" && rating != "negative" then Err("Rating must be 'positive' or 'negative'")
    else if !IsObjectIDHex(messageID) then Err("Invalid message ID")
    else Ok(rating)
  }
}
