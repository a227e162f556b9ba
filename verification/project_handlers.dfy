/** The project endpoints of handlers/project.go: creation with its upload
    loop and defaults, the field-by-field update, reactivation and the soft
    delete. Generated ids, the embed snippet and the extracted PDF text are
    parameters. */
module ProjectHandlers {
  import opened Common
  import opened ProjectModel
  import opened Store
  import Config
  import Admin

  const RoleAdmin := "admin"
  const PdfContentType := "application/pdf"
  /** 10 MB, the largest accepted upload. */
  const MaxUploadSize: int := 10 * 1024 * 1024

  const DefaultWelcomeMessage := "Hello! How can I help you today?"
  const DefaultTheme := "default"
  const DefaultPrimaryColor := "#4f46e5"
  const DefaultCategory := "chatbot"
  const DefaultPosition := "bottom-right"

  /** `getStringOrDefault`. */
  function GetStringOrDefault(value: string, default: string): (r: string)
    ensures value != "" ==> r == value
    ensures value == "" ==> r == default
    ensures default != "" ==> r != ""
  {
    if value == "" then default else value
  }

  // -------------------------------------------------------------------
  // CreateProject
  // -------------------------------------------------------------------

  /** The text fields of the multipart form; a missing field reads as "". */
  datatype CreateForm = CreateForm(
    name: string,
    description: string,
    clientEmail: string,
    welcomeMessage: string,
    theme: string,
    primaryColor: string,
    monthlyTokenLimit: string)

  /** One uploaded file: its header, and the text the extractor returned
      (`None` when extraction failed). */
  datatype Upload = Upload(fileName: string, contentType: string, size: int, extracted: Option<string>)

  /** The token limit field: 100000 when empty or unparsable, otherwise
      whatever integer it holds, zero and negatives included. */
  function ParseTokenLimit(text: string): (n: int)
    ensures text == "" ==> n == Config.DefaultTokenLimit
    ensures Atoi(text).None? ==> n == Config.DefaultTokenLimit
    ensures Atoi(text).Some? ==> n == Atoi(text).value
  {
    if text == "" then Config.DefaultTokenLimit
    else match Atoi(text)
      case Some(v) => v
      case None => Config.DefaultTokenLimit
  }

  /** A limit of "0" is taken as it is, so the new project has no quota. */
  lemma ParseTokenLimitAcceptsZero()
    ensures ParseTokenLimit("0") == 0
  {
    assert Decimal(0) == "0";
    AtoiDecimal(0);
  }

  predicate UploadAccepted(u: Upload)
  {
    u.contentType == PdfContentType && u.size <= MaxUploadSize
  }

  /** The refusal of a bad file: type is checked before size. */
  function UploadRejection(u: Upload): (msg: string)
    requires !UploadAccepted(u)
  {
    if u.contentType != PdfContentType then "File " + u.fileName + " is not a PDF"
    else "File " + u.fileName + " exceeds 10MB limit"
  }

  /** The text kept for a file: what was extracted, or a placeholder. */
  function UploadContent(u: Upload): string
  {
    match u.extracted
    case Some(text) => text
    case None => "Content from " + u.fileName + " could not be extracted"
  }

  function PdfRecord(u: Upload, fileID: string): (f: PdfFile)
    ensures f.Status == PdfProcessed && f.ID == fileID && f.FileName == u.fileName
  {
    PdfFile(fileID, u.fileName, u.size, u.contentType, UploadContent(u), PdfProcessed)
  }

  /** `combinedPDFContent`: every file's text followed by a blank line. */
  function CombinedContent(uploads: seq<Upload>): string
  {
    if uploads == [] then ""
    else CombinedContent(uploads[..|uploads| - 1]) + UploadContent(uploads[|uploads| - 1]) + "\n\n"
  }

  /** The upload loop: every file must be a PDF of at most 10 MB, and the
      first one that is not stops the whole request. */
  method ProcessUploads(uploads: seq<Upload>, fileIDs: seq<string>)
    returns (r: Result<(seq<PdfFile>, string)>)
    requires |fileIDs| == |uploads|
    ensures r.Ok? <==> forall i :: 0 <= i < |uploads| ==> UploadAccepted(uploads[i])
    ensures r.Ok? ==>
      |r.value.0| == |uploads| &&
      (forall i :: 0 <= i < |uploads| ==> r.value.0[i] == PdfRecord(uploads[i], fileIDs[i])) &&
      r.value.1 == CombinedContent(uploads)
    ensures r.Err? ==>
      exists k :: (0 <= k < |uploads| && !UploadAccepted(uploads[k]) &&
        (forall i :: 0 <= i < k ==> UploadAccepted(uploads[i])) &&
        r.error == UploadRejection(uploads[k]))
  {
    var files: seq<PdfFile> := [];
    var combined := "";
    var i := 0;
    while i < |uploads|
      invariant 0 <= i <= |uploads|
      invariant forall j :: 0 <= j < i ==> UploadAccepted(uploads[j])
      invariant |files| == i
      invariant forall j :: 0 <= j < i ==> files[j] == PdfRecord(uploads[j], fileIDs[j])
      invariant combined == CombinedContent(uploads[..i])
    {
      var u := uploads[i];
      if !UploadAccepted(u) {
        return Err(UploadRejection(u));
      }
      assert uploads[..i + 1][..i] == uploads[..i];
      files := files + [PdfRecord(u, fileIDs[i])];
      combined := combined + UploadContent(u) + "\n\n";
      i := i + 1;
    }
    assert uploads[..i] == uploads;
    r := Ok((files, combined));
  }

  /** The record `CreateProject` inserts. */
  function NewProject(objectID: string, projectID: string, embedCode: string, form: CreateForm,
                      files: seq<PdfFile>, content: string, now: int): Project
  {
    Project(
      ID := objectID,
      ProjectID := projectID,
      Name := form.name,
      Description := form.description,
      Category := DefaultCategory,
      ClientID := form.clientEmail,
      StartDate := now,
      ExpiryDate := AddYears(now, 1),
      Status := StatusActive,
      TotalTokensUsed := 0,
      MonthlyTokenLimit := ParseTokenLimit(form.monthlyTokenLimit),
      EmbedCode := embedCode,
      Widget := WidgetConfig(
        Theme := GetStringOrDefault(form.theme, DefaultTheme),
        PrimaryColor := GetStringOrDefault(form.primaryColor, DefaultPrimaryColor),
        WelcomeMessage := GetStringOrDefault(form.welcomeMessage, DefaultWelcomeMessage),
        Position := DefaultPosition,
        ShowBranding := true,
        EnableFileUpload := |files| > 0,
        EnableRating := true),
      AIProvider := ProviderOpenAI,
      OpenAIModel := DefaultModel,
      PDFFiles := files,
      PDFContent := content,
      ReminderSent := false,
      CreatedAt := now,
      UpdatedAt := now,
      IsActive := true)
  }

  /** A new project is active for a year with its whole quota unused, its
      widget texts are never empty, file upload is on exactly when a file
      came with it, and every file it holds counts as processed. */
  lemma NewProjectState(objectID: string, projectID: string, embedCode: string, form: CreateForm,
                        uploads: seq<Upload>, fileIDs: seq<string>, now: int)
    requires |fileIDs| == |uploads|
    ensures var files := seq(|uploads|, i requires 0 <= i < |uploads| => PdfRecord(uploads[i], fileIDs[i]));
      var p := NewProject(objectID, projectID, embedCode, form, files, CombinedContent(uploads), now);
      IsProjectActive(p, now) && !IsExpired(p, now) && p.ExpiryDate > AddMonths(now, 11) &&
      (p.MonthlyTokenLimit >= 0 ==> GetRemainingTokens(p) == p.MonthlyTokenLimit) &&
      (IsValid(p) <==> form.name != "" && projectID != "" && p.MonthlyTokenLimit > 0) &&
      p.Widget.WelcomeMessage != "" && p.Widget.Theme != "" && p.Widget.PrimaryColor != "" &&
      (p.Widget.EnableFileUpload <==> |uploads| > 0) &&
      ProcessedCount(p.PDFFiles) == |uploads| &&
      GetAIModel(p) == DefaultModel
  {
    var files := seq(|uploads|, i requires 0 <= i < |uploads| => PdfRecord(uploads[i], fileIDs[i]));
    AllProcessed(files);
  }

  lemma {:induction false} AllProcessed(files: seq<PdfFile>)
    requires forall i :: 0 <= i < |files| ==> files[i].Status == PdfProcessed
    ensures ProcessedCount(files) == |files|
    decreases |files|
  {
    if files != [] {
      AllProcessed(files[..|files| - 1]);
    }
  }

  /** `CreateProject`. `formOk` is the multipart parse succeeding; the
      upload list has one generated id per file. */
  method CreateProject(db: Database, userID: string, userRole: string, formOk: bool, form: CreateForm,
                       uploads: seq<Upload>, fileIDs: seq<string>,
                       objectID: string, projectID: string, embedCode: string, now: int)
    returns (r: Result<Project>)
    requires |fileIDs| == |uploads|
    modifies db
    ensures r.Ok? <==> (userID != "" && userRole == RoleAdmin && formOk && form.name != "" &&
      forall i :: 0 <= i < |uploads| ==> UploadAccepted(uploads[i]))
    ensures r.Ok? ==>
      r.value == NewProject(objectID, projectID, embedCode, form,
                            seq(|uploads|, i requires 0 <= i < |uploads| => PdfRecord(uploads[i], fileIDs[i])),
                            CombinedContent(uploads), now) &&
      db.projects == old(db.projects) + [Stored(r.value)]
    ensures r.Err? ==> db.projects == old(db.projects)
    ensures db.notifications == old(db.notifications) && db.chatMessages == old(db.chatMessages)
  {
    if userID == "" || userRole != RoleAdmin {
      return Err("Admin authentication required");
    }
    if !formOk {
      return Err("Failed to parse form data");
    }
    if form.name == "" {
      return Err("Project name is required");
    }
    var processed := ProcessUploads(uploads, fileIDs);
    if processed.Err? {
      return Err(processed.error);
    }
    var (files, content) := processed.value;
    assert files == seq(|uploads|, i requires 0 <= i < |uploads| => PdfRecord(uploads[i], fileIDs[i]));
    var project := NewProject(objectID, projectID, embedCode, form, files, content, now);
    db.projects := db.projects + [Stored(project)];
    r := Ok(project);
  }

  // -------------------------------------------------------------------
  // UpdateProject
  // -------------------------------------------------------------------

  datatype UpdateRequest = UpdateRequest(
    name: string,
    description: string,
    monthlyTokenLimit: int,
    welcomeMessage: string,
    theme: string,
    primaryColor: string,
    status: string)

  function SetIfGiven(value: string): Option<string>
  {
    if value != "" then Some(value) else None
  }

  /** The `$set` that `UpdateProject` grows field by field: only non-empty
      texts, a positive limit and a valid status; the time always. */
  function UpdateProjectSet(req: UpdateRequest, now: int): SetFields
  {
    NoFields.(
      updatedAt := Some(now),
      name := SetIfGiven(req.name),
      description := SetIfGiven(req.description),
      monthlyTokenLimit := if req.monthlyTokenLimit > 0 then Some(req.monthlyTokenLimit) else None,
      welcomeMessage := SetIfGiven(req.welcomeMessage),
      theme := SetIfGiven(req.theme),
      primaryColor := SetIfGiven(req.primaryColor),
      status := if req.status != "" && Admin.ValidStatus(req.status) then Some(req.status) else None)
  }

  /** What the update does to a record: an empty text or a non-positive
      limit keeps the stored value, an invalid status is dropped without
      an error, usage and dates are untouched. */
  lemma UpdateProjectEffect(d: Doc, req: UpdateRequest, now: int)
    ensures var q := Apply(d, UpdateProjectSet(req, now)).p;
      q.Name == GetStringOrDefault(req.name, d.p.Name) &&
      q.Description == GetStringOrDefault(req.description, d.p.Description) &&
      q.Widget.WelcomeMessage == GetStringOrDefault(req.welcomeMessage, d.p.Widget.WelcomeMessage) &&
      q.Widget.Theme == GetStringOrDefault(req.theme, d.p.Widget.Theme) &&
      q.Widget.PrimaryColor == GetStringOrDefault(req.primaryColor, d.p.Widget.PrimaryColor) &&
      q.MonthlyTokenLimit == (if req.monthlyTokenLimit > 0 then req.monthlyTokenLimit else d.p.MonthlyTokenLimit) &&
      q.Status == (if Admin.ValidStatus(req.status) then req.status else d.p.Status) &&
      q.TotalTokensUsed == d.p.TotalTokensUsed && q.ExpiryDate == d.p.ExpiryDate &&
      q.IsActive == d.p.IsActive && q.UpdatedAt == now
  {
    ApplyFields(d, UpdateProjectSet(req, now));
  }

  /** `UpdateProject`. */
  method UpdateProject(db: Database, projectID: string, req: UpdateRequest, bindOk: bool, now: int)
    returns (err: Option<string>)
    modifies db
    ensures !bindOk ==> err.Some? && db.projects == old(db.projects)
    ensures bindOk ==> db.projects == UpdateOneIn(old(db.projects), projectID, UpdateProjectSet(req, now)).docs
    ensures bindOk ==> (err.None? <==> UpdateOneIn(old(db.projects), projectID, UpdateProjectSet(req, now)).modified)
    ensures db.notifications == old(db.notifications) && db.chatMessages == old(db.chatMessages)
  {
    if !bindOk {
      return Some("Invalid update data");
    }
    var modified := db.UpdateOne(projectID, UpdateProjectSet(req, now));
    if !modified {
      return Some("Project not found");
    }
    err := None;
  }

  // -------------------------------------------------------------------
  // SuspendProject
  // -------------------------------------------------------------------

  /** `SuspendProject`: the status write of `updateProjectStatus` with its
      outcome unread, so the handler reports success even when no record
      has the id. */
  method SuspendProject(db: Database, projectID: string, now: int) returns (status: string)
    modifies db
    ensures db.projects == UpdateOneIn(old(db.projects), projectID, StatusSet(StatusSuspended, now)).docs
    ensures status == StatusSuspended
    ensures FindOne(old(db.projects), projectID).None? ==> db.projects == old(db.projects)
    ensures db.notifications == old(db.notifications) && db.chatMessages == old(db.chatMessages)
  {
    var _ := db.UpdateOne(projectID, StatusSet(StatusSuspended, now));
    status := StatusSuspended;
  }

  // -------------------------------------------------------------------
  // ReactivateProject
  // -------------------------------------------------------------------

  /** The guard of `ReactivateProject`: only the date counts. */
  function ReactivateProjectCheck(p: Project, now: int): (err: Option<string>)
    ensures err.None? <==> now <= p.ExpiryDate
  {
    if now > p.ExpiryDate then Some("Cannot reactivate expired project. Please renew first.") else None
  }

  /** The handler reactivates a record stored as "expired" whose date is
      still ahead, which the record's own `Reactivate` refuses. */
  lemma ReactivateProjectAllowsStoredExpired(p: Project, now: int)
    requires p.Status == StatusExpired && now <= p.ExpiryDate
    ensures ReactivateProjectCheck(p, now).None? && IsExpired(p, now)
  {
  }

  /** `ReactivateProject`: whatever the current status, including
      "deleted", a record whose date has not passed becomes "active". */
  method ReactivateProject(db: Database, projectID: string, now: int) returns (err: Option<string>)
    modifies db
    ensures FindOne(old(db.projects), projectID).None? ==> err.Some? && db.projects == old(db.projects)
    ensures FindOne(old(db.projects), projectID).Some? ==>
      var p := FindOne(old(db.projects), projectID).value;
      err == ReactivateProjectCheck(p, now) &&
      (err.Some? ==> db.projects == old(db.projects)) &&
      (err.None? ==> db.projects == UpdateOneIn(old(db.projects), projectID, StatusSet(StatusActive, now)).docs)
    ensures db.notifications == old(db.notifications) && db.chatMessages == old(db.chatMessages)
  {
    var found := FindOne(db.projects, projectID);
    if found.None? {
      return Some("Project not found");
    }
    err := ReactivateProjectCheck(found.value, now);
    if err.Some? {
      return;
    }
    var _ := db.UpdateOne(projectID, StatusSet(StatusActive, now));
  }

  // -------------------------------------------------------------------
  // DeleteProject
  // -------------------------------------------------------------------

  /** The soft delete's `$set`. */
  function DeleteSet(now: int): SetFields
  {
    NoFields.(status := Some(StatusDeleted), isActive := Some(false), updatedAt := Some(now))
  }

  /** A deleted record is never active again and drops out of the
      dashboard's total. */
  lemma DeleteDeactivates(d: Doc, now: int)
    ensures var q := Apply(d, DeleteSet(now));
      (forall t :: !IsProjectActive(q.p, t)) && !Admin.CountedInTotal(q) && !Admin.CountedActive(q)
  {
    ApplyFields(d, DeleteSet(now));
  }

  /** `DeleteProject`: an empty id is refused; a deletion is logged. */
  method DeleteProject(db: Database, projectID: string, now: int) returns (err: Option<string>)
    modifies db
    ensures projectID == "" ==> err.Some? && db.projects == old(db.projects)
    ensures projectID != "" ==>
      db.projects == UpdateOneIn(old(db.projects), projectID, DeleteSet(now)).docs &&
      (err.None? <==> UpdateOneIn(old(db.projects), projectID, DeleteSet(now)).modified)
    ensures err.None? ==>
      db.notifications == old(db.notifications) +
        [Notification(Admin.NilObjectID, "deletion", "Project " + projectID + " was deleted", now, Config.NotificationSent)]
    ensures err.Some? ==> db.notifications == old(db.notifications)
    ensures db.chatMessages == old(db.chatMessages)
  {
    if projectID == "" {
      return Some("Project ID is required");
    }
    var modified := db.UpdateOne(projectID, DeleteSet(now));
    if !modified {
      return Some("Project not found");
    }
    var _ := Config.LogNotification(db, Admin.NilObjectID, "deletion", "Project " + projectID + " was deleted", now);
    err := None;
  }
}
