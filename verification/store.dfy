/** The MongoDB collections the core reads and writes, as in-memory
    sequences: stored project documents (which may lack fields), the
    notification log and the chat message log. A `$set` document is a
    `SetFields` value, and `UpdateOne` applies it to the first document whose
    `project_id` matches, as the driver does. */
module Store {
  import opened Common
  import opened ProjectModel

  /** The fields whose presence the maintenance filters test with `$exists`. */
  datatype Field =
    | FStatus | FStartDate | FExpiryDate | FTotalTokensUsed
    | FMonthlyTokenLimit | FProjectId | FAIProvider | FOpenAIModel

  /** A stored project document: the record as the driver decodes it,
      plus the tracked fields the stored document lacks. */
  datatype Doc = Doc(p: Project, absent: set<Field>)

  /** Decoding a document into the `Project` struct reads a missing field
      as its zero value; `p` holds the decoded record, so its missing fields
      hold those zero values. */
  predicate ZeroWhereAbsent(d: Doc)
  {
    (FStatus in d.absent ==> d.p.Status == "") &&
    (FStartDate in d.absent ==> d.p.StartDate == ZeroTime) &&
    (FExpiryDate in d.absent ==> d.p.ExpiryDate == ZeroTime) &&
    (FTotalTokensUsed in d.absent ==> d.p.TotalTokensUsed == 0) &&
    (FMonthlyTokenLimit in d.absent ==> d.p.MonthlyTokenLimit == 0) &&
    (FProjectId in d.absent ==> d.p.ProjectID == "") &&
    (FAIProvider in d.absent ==> d.p.AIProvider == "") &&
    (FOpenAIModel in d.absent ==> d.p.OpenAIModel == "")
  }

  /** A stored record whose every field is present. */
  function Stored(p: Project): (d: Doc)
    ensures ZeroWhereAbsent(d) && d.p == p
  {
    Doc(p, {})
  }

  /** The `$set` part of an update: `Some(v)` sets the field to `v`. */
  datatype SetFields = SetFields(
    status: Option<string>,
    startDate: Option<int>,
    expiryDate: Option<int>,
    totalTokensUsed: Option<int>,
    monthlyTokenLimit: Option<int>,
    reminderSent: Option<bool>,
    isActive: Option<bool>,
    aiProvider: Option<string>,
    openaiModel: Option<string>,
    name: Option<string>,
    description: Option<string>,
    welcomeMessage: Option<string>,
    theme: Option<string>,
    primaryColor: Option<string>,
    updatedAt: Option<int>)

  const NoFields := SetFields(None, None, None, None, None, None, None, None, None, None, None, None, None, None, None)

  /** `$set: {"status": s, "updated_at": now}`, the status write used all over. */
  function StatusSet(status: string, now: int): SetFields
  {
    NoFields.(status := Some(status), updatedAt := Some(now))
  }

  /** The tracked fields a `$set` writes (and so makes present). */
  function Written(s: SetFields): set<Field>
  {
    (if s.status.Some? then {FStatus} else {}) +
    (if s.startDate.Some? then {FStartDate} else {}) +
    (if s.expiryDate.Some? then {FExpiryDate} else {}) +
    (if s.totalTokensUsed.Some? then {FTotalTokensUsed} else {}) +
    (if s.monthlyTokenLimit.Some? then {FMonthlyTokenLimit} else {}) +
    (if s.aiProvider.Some? then {FAIProvider} else {}) +
    (if s.openaiModel.Some? then {FOpenAIModel} else {})
  }

  function Pick<T>(o: Option<T>, current: T): T
  {
    if o.Some? then o.value else current
  }

  /** The record a `$set` leaves: each named field takes its new value. */
  function SetProject(p: Project, s: SetFields): Project
  {
    p.(
      Status := Pick(s.status, p.Status),
      StartDate := Pick(s.startDate, p.StartDate),
      ExpiryDate := Pick(s.expiryDate, p.ExpiryDate),
      TotalTokensUsed := Pick(s.totalTokensUsed, p.TotalTokensUsed),
      MonthlyTokenLimit := Pick(s.monthlyTokenLimit, p.MonthlyTokenLimit),
      ReminderSent := Pick(s.reminderSent, p.ReminderSent),
      IsActive := Pick(s.isActive, p.IsActive),
      AIProvider := Pick(s.aiProvider, p.AIProvider),
      OpenAIModel := Pick(s.openaiModel, p.OpenAIModel),
      Name := Pick(s.name, p.Name),
      Description := Pick(s.description, p.Description),
      Widget := p.Widget.(
        WelcomeMessage := Pick(s.welcomeMessage, p.Widget.WelcomeMessage),
        Theme := Pick(s.theme, p.Widget.Theme),
        PrimaryColor := Pick(s.primaryColor, p.Widget.PrimaryColor)),
      UpdatedAt := Pick(s.updatedAt, p.UpdatedAt))
  }

  /** Applying a `$set` to one document: the written fields become present. */
  function Apply(d: Doc, s: SetFields): (r: Doc)
    ensures r.absent == d.absent - Written(s)
    ensures ZeroWhereAbsent(d) ==> ZeroWhereAbsent(r)
  {
    Doc(SetProject(d.p, s), d.absent - Written(s))
  }

  /** What a `$set` does to the record: the fields it names read back as
      written, the others as before. */
  lemma ApplyFields(d: Doc, s: SetFields)
    ensures s.status.Some? ==> Apply(d, s).p.Status == s.status.value
    ensures s.status.None? ==> Apply(d, s).p.Status == d.p.Status
    ensures s.expiryDate.Some? ==> Apply(d, s).p.ExpiryDate == s.expiryDate.value
    ensures s.expiryDate.None? ==> Apply(d, s).p.ExpiryDate == d.p.ExpiryDate
    ensures s.totalTokensUsed.Some? ==> Apply(d, s).p.TotalTokensUsed == s.totalTokensUsed.value
    ensures s.totalTokensUsed.None? ==> Apply(d, s).p.TotalTokensUsed == d.p.TotalTokensUsed
    ensures s.monthlyTokenLimit.Some? ==> Apply(d, s).p.MonthlyTokenLimit == s.monthlyTokenLimit.value
    ensures s.monthlyTokenLimit.None? ==> Apply(d, s).p.MonthlyTokenLimit == d.p.MonthlyTokenLimit
    ensures s.isActive.Some? ==> Apply(d, s).p.IsActive == s.isActive.value
    ensures s.isActive.None? ==> Apply(d, s).p.IsActive == d.p.IsActive
    ensures Apply(d, s).p.ProjectID == d.p.ProjectID && Apply(d, s).p.ID == d.p.ID
  {
  }

  /** An empty `$set` changes nothing. */
  lemma ApplyNothing(d: Doc)
    ensures Apply(d, NoFields) == d
  {
  }

  /** `$inc: {"total_tokens_used": n}` (a missing counter counts from 0),
      with an optional `$set` of `updated_at`. */
  function Increment(d: Doc, n: int, updatedAt: Option<int>): (r: Doc)
    ensures ZeroWhereAbsent(d) ==> r.p.TotalTokensUsed == d.p.TotalTokensUsed + n
    ensures r.p == d.p.(TotalTokensUsed := r.p.TotalTokensUsed, UpdatedAt := r.p.UpdatedAt)
    ensures r.absent == d.absent - {FTotalTokensUsed}
    ensures ZeroWhereAbsent(d) ==> ZeroWhereAbsent(r)
  {
    Doc(d.p.(TotalTokensUsed := d.p.TotalTokensUsed + n,
             UpdatedAt := Pick(updatedAt, d.p.UpdatedAt)),
        d.absent - {FTotalTokensUsed})
  }

  /** The filter `{"project_id": id}`: a document without the field never matches. */
  predicate HasProjectId(d: Doc, id: string)
  {
    FProjectId !in d.absent && d.p.ProjectID == id
  }

  /** Every document of a collection decodes with zero values where a
      field is missing; every write below keeps this. */
  predicate AllDecoded(docs: seq<Doc>)
  {
    forall i :: 0 <= i < |docs| ==> ZeroWhereAbsent(docs[i])
  }

  /** The first document `{"project_id": id}` selects. */
  function FindIndex(docs: seq<Doc>, id: string): (r: Option<nat>)
    ensures r.Some? ==> r.value < |docs| && HasProjectId(docs[r.value], id)
    ensures r.Some? ==> forall j :: 0 <= j < r.value ==> !HasProjectId(docs[j], id)
    ensures r.None? <==> forall j :: 0 <= j < |docs| ==> !HasProjectId(docs[j], id)
  {
    if docs == [] then None
    else if HasProjectId(docs[0], id) then Some(0)
    else
      match FindIndex(docs[1..], id)
      case None => None
      case Some(k) => Some(k + 1)
  }

  /** `FindOne(...).Decode(&project)`. */
  function FindOne(docs: seq<Doc>, id: string): (r: Option<Project>)
    ensures r.Some? <==> FindIndex(docs, id).Some?
    ensures r.Some? ==> r.value.ProjectID == id
  {
    match FindIndex(docs, id)
    case None => None
    case Some(i) => Some(docs[i].p)
  }

  /** Which document an `UpdateOne` by project id touches, and the
      resulting collection; `modified` is the driver's ModifiedCount > 0. */
  datatype UpdateResult = UpdateResult(docs: seq<Doc>, matched: bool, modified: bool)

  function UpdateOneIn(docs: seq<Doc>, id: string, s: SetFields): (r: UpdateResult)
    ensures |r.docs| == |docs|
    ensures r.matched <==> FindIndex(docs, id).Some?
    ensures !r.matched ==> r.docs == docs && !r.modified
    ensures r.matched ==> r.docs == docs[FindIndex(docs, id).value := Apply(docs[FindIndex(docs, id).value], s)]
    ensures r.modified <==> r.docs != docs
    ensures AllDecoded(docs) ==> AllDecoded(r.docs)
  {
    match FindIndex(docs, id)
    case None => UpdateResult(docs, false, false)
    case Some(i) =>
      var d' := Apply(docs[i], s);
      assert d' != docs[i] ==> docs[i := d'][i] != docs[i];
      UpdateResult(docs[i := d'], true, d' != docs[i])
  }

  /** An update that matched leaves the matched document first in line:
      reading the id back gives the updated record. */
  lemma UpdateOneInKeepsIndex(docs: seq<Doc>, id: string, s: SetFields)
    requires FindIndex(docs, id).Some?
    ensures FindIndex(UpdateOneIn(docs, id, s).docs, id) == FindIndex(docs, id)
    ensures FindOne(UpdateOneIn(docs, id, s).docs, id) == Some(Apply(docs[FindIndex(docs, id).value], s).p)
  {
    var i := FindIndex(docs, id).value;
    var updated := UpdateOneIn(docs, id, s).docs;
    assert HasProjectId(updated[i], id);
    var k := FindIndex(updated, id);
    assert k.Some?;
  }

  /** Increments the counter of the first matching document. */
  function IncrementOneIn(docs: seq<Doc>, id: string, n: int, updatedAt: Option<int>): (r: seq<Doc>)
    ensures |r| == |docs|
    ensures FindIndex(docs, id).None? ==> r == docs
    ensures FindIndex(docs, id).Some? ==>
      var i := FindIndex(docs, id).value;
      r == docs[i := Increment(docs[i], n, updatedAt)]
    ensures AllDecoded(docs) ==> AllDecoded(r)
  {
    match FindIndex(docs, id)
    case None => docs
    case Some(i) => docs[i := Increment(docs[i], n, updatedAt)]
  }

  /** `UpdateMany(ctx, filter, {"$set": s})`: every matching document is
      updated, every other one is left as it was. */
  function UpdateMany(docs: seq<Doc>, matches: Doc -> bool, s: SetFields): (r: seq<Doc>)
    ensures |r| == |docs|
    ensures forall i :: 0 <= i < |docs| && matches(docs[i]) ==> r[i] == Apply(docs[i], s)
    ensures forall i :: 0 <= i < |docs| && !matches(docs[i]) ==> r[i] == docs[i]
    ensures AllDecoded(docs) ==> AllDecoded(r)
  {
    seq(|docs|, i requires 0 <= i < |docs| => if matches(docs[i]) then Apply(docs[i], s) else docs[i])
  }

  /** An update that no document matches leaves the collection as it is. */
  lemma UpdateManyNoMatch(docs: seq<Doc>, matches: Doc -> bool, s: SetFields)
    requires forall i :: 0 <= i < |docs| ==> !matches(docs[i])
    ensures UpdateMany(docs, matches, s) == docs
  {
  }

  /** An entry of the `notifications` collection. */
  datatype Notification = Notification(
    ProjectID: string,
    Type: string,
    Message: string,
    SentAt: int,
    Status: string)

  /** An entry of the `chat_messages` collection. */
  datatype ChatMessage = ChatMessage(
    ProjectID: string,
    SessionID: string,
    UserID: string,
    Message: string,
    Response: string,
    TokensUsed: int,
    CreatedAt: int)

  /** The database handle: the three collections the core touches. */
  class Database {
    var projects: seq<Doc>
    var notifications: seq<Notification>
    var chatMessages: seq<ChatMessage>

    constructor (initial: seq<Doc>)
      ensures projects == initial && notifications == [] && chatMessages == []
    {
      projects := initial;
      notifications := [];
      chatMessages := [];
    }

    /** `UpdateOne(ctx, {"project_id": id}, {"$set": s})`. */
    method UpdateOne(id: string, s: SetFields) returns (modified: bool)
      modifies this
      ensures projects == UpdateOneIn(old(projects), id, s).docs
      ensures modified == UpdateOneIn(old(projects), id, s).modified
      ensures notifications == old(notifications) && chatMessages == old(chatMessages)
      ensures AllDecoded(old(projects)) ==> AllDecoded(projects)
    {
      var r := UpdateOneIn(projects, id, s);
      projects := r.docs;
      modified := r.modified;
    }

    /** `UpdateOne(ctx, {"project_id": id}, {"$inc": {"total_tokens_used": n}, ...})`. */
    method IncrementUsage(id: string, n: int, updatedAt: Option<int>)
      modifies this
      ensures projects == IncrementOneIn(old(projects), id, n, updatedAt)
      ensures notifications == old(notifications) && chatMessages == old(chatMessages)
      ensures AllDecoded(old(projects)) ==> AllDecoded(projects)
    {
      projects := IncrementOneIn(projects, id, n, updatedAt);
    }
  }
}
