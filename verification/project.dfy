/** The project record of models/project.go: the billing and quota unit,
    its status predicates and the in-place transitions of `*Project`. */
module ProjectModel {
  import opened Common

  const StatusActive := "active"
  const StatusSuspended := "suspended"
  const StatusExpired := "expired"
  const StatusDeleted := "deleted"

  const ProviderOpenAI := "openai"
  const ProviderGemini := "gemini"
  const DefaultModel := "gpt-4o"
  const GeminiModel := "gemini-1.5-flash"

  const PdfProcessed := "processed"

  /** Three days, the reminder lead time (`AddDate(0, 0, -3)`). */
  const ReminderLead: int := 3 * Day

  datatype PdfFile = PdfFile(
    ID: string,
    FileName: string,
    FileSize: int,
    ContentType: string,
    Content: string,
    Status: string)

  datatype WidgetConfig = WidgetConfig(
    Theme: string,
    PrimaryColor: string,
    WelcomeMessage: string,
    Position: string,
    ShowBranding: bool,
    EnableFileUpload: bool,
    EnableRating: bool)

  /** The `Project` struct. `ID` is the store's own id, `ProjectID` the
      external one. `Status` is a free string; the four constants above are
      the values the system writes. */
  datatype Project = Project(
    ID: string,
    ProjectID: string,
    Name: string,
    Description: string,
    Category: string,
    ClientID: string,
    StartDate: int,
    ExpiryDate: int,
    Status: string,
    TotalTokensUsed: int,
    MonthlyTokenLimit: int,
    EmbedCode: string,
    Widget: WidgetConfig,
    AIProvider: string,
    OpenAIModel: string,
    PDFFiles: seq<PdfFile>,
    PDFContent: string,
    ReminderSent: bool,
    CreatedAt: int,
    UpdatedAt: int,
    IsActive: bool)

  /** `IsValid`: the required fields are present and the quota positive. */
  predicate IsValid(p: Project)
  {
    p.Name != "" && p.ProjectID != "" && p.MonthlyTokenLimit > 0
  }

  /** `IsExpired`: past the expiry instant, or stored as expired. */
  predicate IsExpired(p: Project, now: int)
  {
    now > p.ExpiryDate || p.Status == StatusExpired
  }

  /** `IsProjectActive`: an active project is never also expired. */
  predicate IsProjectActive(p: Project, now: int)
    ensures IsProjectActive(p, now) ==> !IsExpired(p, now)
    ensures IsProjectActive(p, now) ==> p.Status == StatusActive && p.IsActive
  {
    p.Status == StatusActive && p.IsActive && now < p.ExpiryDate
  }

  /** At the expiry instant itself a project is not active, and it is not
      expired either unless its stored status says so. */
  lemma ExpiryInstantIsNeither(p: Project)
    ensures !IsProjectActive(p, p.ExpiryDate)
    ensures IsExpired(p, p.ExpiryDate) <==> p.Status == StatusExpired
  {
  }

  /** `GetRemainingTokens`: the unused part of the quota, never negative. */
  function GetRemainingTokens(p: Project): (r: int)
    ensures r >= 0
    ensures p.TotalTokensUsed <= p.MonthlyTokenLimit ==> p.TotalTokensUsed + r == p.MonthlyTokenLimit
    ensures p.TotalTokensUsed >= p.MonthlyTokenLimit ==> r == 0
  {
    var remaining := p.MonthlyTokenLimit - p.TotalTokensUsed;
    if remaining < 0 then 0 else remaining
  }

  /** `CanUseTokens`: a request of `needed` tokens fits the remaining quota
      of an active project. */
  predicate CanUseTokens(p: Project, needed: int, now: int)
    ensures CanUseTokens(p, needed, now) ==> IsProjectActive(p, now)
    ensures CanUseTokens(p, needed, now) ==> needed <= GetRemainingTokens(p)
    ensures CanUseTokens(p, needed, now) && needed >= 0 ==> p.TotalTokensUsed <= p.MonthlyTokenLimit
  {
    IsProjectActive(p, now) && p.TotalTokensUsed + needed <= p.MonthlyTokenLimit
  }

  /** `GetAIModel`: the model to ask, by provider. */
  function GetAIModel(p: Project): (model: string)
    ensures model != ""
    ensures p.AIProvider == ProviderGemini ==> model == GeminiModel
    ensures p.AIProvider == ProviderOpenAI && p.OpenAIModel != "" ==> model == p.OpenAIModel
    ensures model != DefaultModel && model != GeminiModel ==> model == p.OpenAIModel
  {
    if p.AIProvider == ProviderOpenAI then
      (if p.OpenAIModel != "" then p.OpenAIModel else DefaultModel)
    else if p.AIProvider == ProviderGemini then GeminiModel
    else DefaultModel
  }

  /** Number of files whose status is "processed". */
  function ProcessedCount(files: seq<PdfFile>): (n: nat)
    ensures n <= |files|
  {
    if files == [] then 0
    else ProcessedCount(files[..|files| - 1]) + (if files[|files| - 1].Status == PdfProcessed then 1 else 0)
  }

  lemma {:induction false} ProcessedCountAppend(a: seq<PdfFile>, b: seq<PdfFile>)
    ensures ProcessedCount(a + b) == ProcessedCount(a) + ProcessedCount(b)
    decreases |b|
  {
    if b != [] {
      assert (a + b)[..|a + b| - 1] == a + b[..|b| - 1];
      ProcessedCountAppend(a, b[..|b| - 1]);
    } else {
      assert a + b == a;
    }
  }

  /** `NeedsReminderNotification`: within the three days before expiry, and
      no reminder sent yet. */
  predicate NeedsReminderNotification(p: Project, now: int)
    ensures p.ReminderSent ==> !NeedsReminderNotification(p, now)
    ensures NeedsReminderNotification(p, now) ==> p.ExpiryDate - ReminderLead < now < p.ExpiryDate
    ensures !p.ReminderSent && p.ExpiryDate - ReminderLead < now < p.ExpiryDate ==> NeedsReminderNotification(p, now)
  {
    if p.ReminderSent then false
    else
      var reminderDate := p.ExpiryDate - ReminderLead;
      now > reminderDate && now < p.ExpiryDate
  }

  /** A reminder is only ever due for a project that is not past expiry. */
  lemma ReminderOnlyBeforeExpiry(p: Project, now: int)
    requires NeedsReminderNotification(p, now)
    ensures now <= p.ExpiryDate && !(now > p.ExpiryDate)
  {
  }

  /** A `*Project`: the methods of models/project.go that change the record
      in place. `now` stands for `time.Now()`. */
  class ProjectRef {
    var val: Project

    constructor (p: Project)
      ensures val == p
    {
      val := p;
    }

    /** `AddTokenUsage`: usage grows by exactly `tokens`. */
    method AddTokenUsage(tokens: int, now: int)
      modifies this
      ensures val.TotalTokensUsed == old(val.TotalTokensUsed) + tokens
      ensures val == old(val).(TotalTokensUsed := val.TotalTokensUsed, UpdatedAt := now)
    {
      val := val.(TotalTokensUsed := val.TotalTokensUsed + tokens, UpdatedAt := now);
    }

    /** `ResetTokenUsage`: usage back to zero, the whole quota remaining. */
    method ResetTokenUsage(now: int)
      modifies this
      ensures val == old(val).(TotalTokensUsed := 0, UpdatedAt := now)
      ensures val.MonthlyTokenLimit >= 0 ==> GetRemainingTokens(val) == val.MonthlyTokenLimit
    {
      val := val.(TotalTokensUsed := 0, UpdatedAt := now);
    }

    /** `ExtendSubscription`: from now when expired (by date or by status),
        otherwise from the current expiry; always active again. */
    method ExtendSubscription(months: int, now: int)
      modifies this
      ensures val.ExpiryDate == AddMonths(if IsExpired(old(val), now) then now else old(val.ExpiryDate), months)
      ensures val == old(val).(ExpiryDate := val.ExpiryDate, Status := StatusActive, ReminderSent := false, UpdatedAt := now)
      ensures months >= 1 ==> !IsExpired(val, now) && val.ExpiryDate > now
      ensures months >= 1 && val.IsActive ==> IsProjectActive(val, now)
    {
      if IsExpired(val, now) {
        val := val.(ExpiryDate := AddMonths(now, months));
      } else {
        val := val.(ExpiryDate := AddMonths(val.ExpiryDate, months));
      }
      val := val.(Status := StatusActive, ReminderSent := false, UpdatedAt := now);
    }

    /** `Suspend`: unconditional. */
    method Suspend(now: int)
      modifies this
      ensures val == old(val).(Status := StatusSuspended, UpdatedAt := now)
      ensures forall t :: !IsProjectActive(val, t)
    {
      val := val.(Status := StatusSuspended, UpdatedAt := now);
    }

    /** `Reactivate`: refused for an expired project, which includes one
        stored as "expired" whose date is still in the future. */
    method Reactivate(now: int) returns (err: Option<string>)
      modifies this
      ensures err.Some? <==> IsExpired(old(val), now)
      ensures err.Some? ==> val == old(val)
      ensures err.None? ==> val == old(val).(Status := StatusActive, UpdatedAt := now)
      ensures err.None? && val.IsActive ==> IsProjectActive(val, now) || now == val.ExpiryDate
    {
      if IsExpired(val, now) {
        return Some("cannot reactivate expired project");
      }
      val := val.(Status := StatusActive, UpdatedAt := now);
      err := None;
    }

    /** `MarkAsExpired`. */
    method MarkAsExpired(now: int)
      modifies this
      ensures val == old(val).(Status := StatusExpired, UpdatedAt := now)
      ensures forall t :: IsExpired(val, t)
    {
      val := val.(Status := StatusExpired, UpdatedAt := now);
    }

    /** `SoftDelete`: the record stays, and is never active again until
        something rewrites both fields. */
    method SoftDelete(now: int)
      modifies this
      ensures val == old(val).(Status := StatusDeleted, IsActive := false, UpdatedAt := now)
      ensures forall t :: !IsProjectActive(val, t)
    {
      val := val.(Status := StatusDeleted, IsActive := false, UpdatedAt := now);
    }

    /** `GetProcessedPDFCount`: the counting loop over the uploaded files. */
    method GetProcessedPDFCount() returns (count: nat)
      ensures count == ProcessedCount(val.PDFFiles)
      ensures count <= |val.PDFFiles|
    {
      var files := val.PDFFiles;
      count := 0;
      var i := 0;
      while i < |files|
        invariant 0 <= i <= |files|
        invariant count == ProcessedCount(files[..i])
      {
        assert files[..i + 1][..i] == files[..i];
        if files[i].Status == PdfProcessed {
          count := count + 1;
        }
        i := i + 1;
      }
      assert files[..|files|] == files;
    }
  }
}
