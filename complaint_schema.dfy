/**
 * The complaint document of backend/src/models/complaintModel.js: its enums,
 * the field constraints Mongoose checks on create and on validated updates,
 * the defaults it fills in, and the validity every stored complaint keeps.
 */
module ComplaintSchema {
  import opened Wrappers
  import opened Identity
  import Text

  datatype Category =
    | Electricity | WaterSupply | Road | GarbageCollection
    | PublicTransport | Healthcare | Education | Others

  function CategoryName(c: Category): string {
    match c
    case Electricity => "Electricity"
    case WaterSupply => "Water Supply"
    case Road => "Road"
    case GarbageCollection => "Garbage Collection"
    case PublicTransport => "Public Transport"
    case Healthcare => "Healthcare"
    case Education => "Education"
    case Others => "Others"
  }

  /** The category enum check: a string names a category exactly when it parses. */
  function ParseCategory(s: string): (r: Option<Category>)
    ensures r.Some? ==> CategoryName(r.value) == s
    ensures r.None? ==> forall c :: CategoryName(c) != s
  {
    if s == "Electricity" then Some(Electricity)
    else if s == "Water Supply" then Some(WaterSupply)
    else if s == "Road" then Some(Road)
    else if s == "Garbage Collection" then Some(GarbageCollection)
    else if s == "Public Transport" then Some(PublicTransport)
    else if s == "Healthcare" then Some(Healthcare)
    else if s == "Education" then Some(Education)
    else if s == "Others" then Some(Others)
    else None
  }

  datatype Status = Pending | InProgress | Resolved | Rejected

  function StatusName(s: Status): string {
    match s
    case Pending => "pending"
    case InProgress => "in-progress"
    case Resolved => "resolved"
    case Rejected => "rejected"
  }

  /** The status enum check, also used by the status handler. */
  function ParseStatus(s: string): (r: Option<Status>)
    ensures r.Some? ==> StatusName(r.value) == s
    ensures r.None? ==> forall st :: StatusName(st) != s
  {
    if s == "pending" then Some(Pending)
    else if s == "in-progress" then Some(InProgress)
    else if s == "resolved" then Some(Resolved)
    else if s == "rejected" then Some(Rejected)
    else None
  }

  datatype Priority = Low | Medium | High

  function PriorityName(p: Priority): string {
    match p
    case Low => "low"
    case Medium => "medium"
    case High => "high"
  }

  function ParsePriority(s: string): (r: Option<Priority>)
    ensures r.Some? ==> PriorityName(r.value) == s
    ensures r.None? ==> forall p :: PriorityName(p) != s
  {
    if s == "low" then Some(Low)
    else if s == "medium" then Some(Medium)
    else if s == "high" then Some(High)
    else None
  }

  /** A comment sub-document; its author reference is optional in the schema. */
  datatype Comment = Comment(user: Option<UserId>, text: string, createdAt: int)

  /** A stored complaint. Times are passed in, never read from a clock. */
  datatype Complaint = Complaint(
    title: string,
    description: string,
    category: Category,
    location: string,
    images: seq<string>,
    status: Status,
    priority: Priority,
    user: UserId,
    assignedTo: Option<UserId>,
    votes: int,
    voters: seq<UserId>,
    comments: seq<Comment>,
    createdAt: int,
    updatedAt: int)

  /** `title`: after trimming, at least 5 and at most 100 characters (so never empty). */
  predicate TitleOk(raw: string) {
    5 <= |Text.Trim(raw)| <= 100
  }

  /** `description`: after trimming, at least 10 characters. */
  predicate DescriptionOk(raw: string) {
    |Text.Trim(raw)| >= 10
  }

  /** `location` is required: a string Mongoose accepts as present is non-empty. */
  predicate LocationOk(raw: string) {
    raw != ""
  }

  /** A comment's text is required, so non-empty; it is not trimmed. */
  predicate CommentOk(text: string) {
    text != ""
  }

  /** What every stored complaint satisfies: the schema's constraints on its stored values. */
  ghost predicate ValidComplaint(c: Complaint) {
    && TitleOk(c.title) && Text.Trim(c.title) == c.title
    && DescriptionOk(c.description) && Text.Trim(c.description) == c.description
    && LocationOk(c.location)
    && forall i :: 0 <= i < |c.comments| ==> CommentOk(c.comments[i].text)
  }

  /** A comment as a request body gives it; `createdAt` is `None` when the body leaves it out. */
  datatype CommentBody = CommentBody(user: Option<UserId>, text: string, createdAt: Option<int>)

  /**
   * The fields a request body may carry. `None` is a field the body leaves out.
   * Fields outside the schema are dropped by Mongoose's strict mode; the
   * document's own `_id`, `createdAt` and `updatedAt`, which a body may also
   * carry, are not part of this model.
   */
  datatype ComplaintBody = ComplaintBody(
    title: Option<string>,
    description: Option<string>,
    category: Option<string>,
    location: Option<string>,
    images: Option<seq<string>>,
    status: Option<string>,
    priority: Option<string>,
    user: Option<UserId>,
    assignedTo: Option<UserId>,
    votes: Option<int>,
    voters: Option<seq<UserId>>,
    comments: Option<seq<CommentBody>>)

  /** Every field the body carries passes its validators (what update validators check). */
  predicate FieldsValid(b: ComplaintBody) {
    && (b.title.Some? ==> TitleOk(b.title.value))
    && (b.description.Some? ==> DescriptionOk(b.description.value))
    && (b.category.Some? ==> ParseCategory(b.category.value).Some?)
    && (b.location.Some? ==> LocationOk(b.location.value))
    && (b.status.Some? ==> ParseStatus(b.status.value).Some?)
    && (b.priority.Some? ==> ParsePriority(b.priority.value).Some?)
    && (b.comments.Some? ==> forall i :: 0 <= i < |b.comments.value| ==> CommentOk(b.comments.value[i].text))
  }

  /** Document validation on create: the carried fields are valid and the required ones are there. */
  predicate CreateValid(b: ComplaintBody) {
    && FieldsValid(b)
    && b.title.Some? && b.description.Some? && b.category.Some? && b.location.Some?
  }

  /**
   * Comment bodies become sub-documents; a comment without a time is stamped
   * with the time of the write, one with a time keeps it.
   */
  function StampComments(cs: seq<CommentBody>, now: int): (r: seq<Comment>)
    ensures |r| == |cs|
    ensures forall i :: 0 <= i < |cs| ==> r[i].user == cs[i].user && r[i].text == cs[i].text
    ensures forall i :: 0 <= i < |cs| && cs[i].createdAt.None? ==> r[i].createdAt == now
    ensures forall i :: 0 <= i < |cs| && cs[i].createdAt.Some? ==> r[i].createdAt == cs[i].createdAt.value
  {
    seq(|cs|, i requires 0 <= i < |cs| => Comment(cs[i].user, cs[i].text, cs[i].createdAt.GetOr(now)))
  }

  /**
   * `Complaint.create(body)`: trims the strings, parses the enums and fills the
   * defaults (status pending, priority medium, no votes, no voters, no comments).
   */
  function NewComplaint(b: ComplaintBody, owner: UserId, now: int): (c: Complaint)
    requires CreateValid(b)
    ensures c.user == owner
    ensures c.title == Text.Trim(b.title.value) && c.description == Text.Trim(b.description.value)
    ensures CategoryName(c.category) == b.category.value && c.location == b.location.value
    ensures b.status.None? ==> c.status == Pending
    ensures b.status.Some? ==> StatusName(c.status) == b.status.value
    ensures b.priority.None? ==> c.priority == Medium
    ensures b.priority.Some? ==> PriorityName(c.priority) == b.priority.value
    ensures b.votes.None? ==> c.votes == 0
    ensures b.votes.Some? ==> c.votes == b.votes.value
    ensures b.voters.None? ==> c.voters == []
    ensures b.voters.Some? ==> c.voters == b.voters.value
    ensures b.comments.None? ==> c.comments == []
    ensures b.comments.Some? ==> c.comments == StampComments(b.comments.value, now)
    ensures b.images.None? ==> c.images == []
    ensures b.images.Some? ==> c.images == b.images.value
    ensures c.assignedTo == b.assignedTo
    ensures c.createdAt == now && c.updatedAt == now
  {
    var title := Text.Trim(b.title.value);
    var description := Text.Trim(b.description.value);
    var comments := StampComments(b.comments.GetOr([]), now);
    Complaint(
      title,
      description,
      ParseCategory(b.category.value).value,
      b.location.value,
      b.images.GetOr([]),
      if b.status.Some? then ParseStatus(b.status.value).value else Pending,
      if b.priority.Some? then ParsePriority(b.priority.value).value else Medium,
      owner,
      b.assignedTo,
      b.votes.GetOr(0),
      b.voters.GetOr([]),
      comments,
      now,
      now)
  }

  /**
   * A validated `findByIdAndUpdate(id, body)`: every field the body carries is
   * set (strings trimmed, enums parsed), the others are kept, `updatedAt` moves.
   * The owner field is as writable as any other.
   */
  function ApplyUpdate(c: Complaint, b: ComplaintBody, now: int): (r: Complaint)
    requires FieldsValid(b)
    ensures r.createdAt == c.createdAt && r.updatedAt == now
    ensures b.status.Some? ==> StatusName(r.status) == b.status.value
    ensures b.votes.Some? ==> r.votes == b.votes.value
    ensures b.user.Some? ==> r.user == b.user.value
  {
    c.(
      title := if b.title.Some? then Text.Trim(b.title.value) else c.title,
      description := if b.description.Some? then Text.Trim(b.description.value) else c.description,
      category := if b.category.Some? then ParseCategory(b.category.value).value else c.category,
      location := b.location.GetOr(c.location),
      images := b.images.GetOr(c.images),
      status := if b.status.Some? then ParseStatus(b.status.value).value else c.status,
      priority := if b.priority.Some? then ParsePriority(b.priority.value).value else c.priority,
      user := b.user.GetOr(c.user),
      assignedTo := if b.assignedTo.Some? then b.assignedTo else c.assignedTo,
      votes := b.votes.GetOr(c.votes),
      voters := b.voters.GetOr(c.voters),
      comments := if b.comments.Some? then StampComments(b.comments.value, now) else c.comments,
      updatedAt := now)
  }

  /** The text fields the body carries are set, trimmed; the others are kept. */
  lemma UpdateTextFields(c: Complaint, b: ComplaintBody, now: int)
    requires FieldsValid(b)
    ensures var r := ApplyUpdate(c, b, now);
      && (b.title.None? ==> r.title == c.title)
      && (b.title.Some? ==> r.title == Text.Trim(b.title.value))
      && (b.description.None? ==> r.description == c.description)
      && (b.description.Some? ==> r.description == Text.Trim(b.description.value))
      && (b.location.None? ==> r.location == c.location)
      && (b.location.Some? ==> r.location == b.location.value)
  {
  }

  /** The enum fields the body carries are set to the values it names; the others are kept. */
  lemma UpdateEnumFields(c: Complaint, b: ComplaintBody, now: int)
    requires FieldsValid(b)
    ensures var r := ApplyUpdate(c, b, now);
      && (b.category.None? ==> r.category == c.category)
      && (b.category.Some? ==> CategoryName(r.category) == b.category.value)
      && (b.status.None? ==> r.status == c.status)
      && (b.status.Some? ==> StatusName(r.status) == b.status.value)
      && (b.priority.None? ==> r.priority == c.priority)
      && (b.priority.Some? ==> PriorityName(r.priority) == b.priority.value)
  {
  }

  /** Owner, assignee, images, votes, voters and comments follow the body; `updatedAt` moves, `createdAt` stays. */
  lemma UpdateOtherFields(c: Complaint, b: ComplaintBody, now: int)
    requires FieldsValid(b)
    ensures var r := ApplyUpdate(c, b, now);
      && (b.user.None? ==> r.user == c.user)
      && (b.user.Some? ==> r.user == b.user.value)
      && (b.votes.None? ==> r.votes == c.votes)
      && (b.votes.Some? ==> r.votes == b.votes.value)
      && (b.voters.None? ==> r.voters == c.voters)
      && (b.voters.Some? ==> r.voters == b.voters.value)
      && (b.comments.None? ==> r.comments == c.comments)
      && (b.comments.Some? ==> r.comments == StampComments(b.comments.value, now))
      && (b.images.None? ==> r.images == c.images)
      && (b.images.Some? ==> r.images == b.images.value)
      && (b.assignedTo.None? ==> r.assignedTo == c.assignedTo)
      && (b.assignedTo.Some? ==> r.assignedTo == b.assignedTo)
      && r.createdAt == c.createdAt && r.updatedAt == now
  {
  }

  /** A freshly created complaint satisfies every schema constraint. */
  lemma NewComplaintIsValid(b: ComplaintBody, owner: UserId, now: int)
    requires CreateValid(b)
    ensures ValidComplaint(NewComplaint(b, owner, now))
  {
    Text.TrimIdempotent(b.title.value);
    Text.TrimIdempotent(b.description.value);
  }

  /** A validated update keeps a valid complaint valid. */
  lemma ApplyUpdatePreservesValidity(c: Complaint, b: ComplaintBody, now: int)
    requires FieldsValid(b) && ValidComplaint(c)
    ensures ValidComplaint(ApplyUpdate(c, b, now))
  {
    var r := ApplyUpdate(c, b, now);
    UpdateTextFields(c, b, now);
    UpdateOtherFields(c, b, now);
    Text.TrimIdempotent(b.title.GetOr(""));
    Text.TrimIdempotent(b.description.GetOr(""));
    assert TitleOk(r.title) && Text.Trim(r.title) == r.title;
    assert DescriptionOk(r.description) && Text.Trim(r.description) == r.description;
    assert LocationOk(r.location);
    assert forall i :: 0 <= i < |r.comments| ==> CommentOk(r.comments[i].text);
  }

  /** The body that carries no field. */
  const EmptyBody := ComplaintBody(None, None, None, None, None, None, None, None, None, None, None, None)

  /** An update with an empty body only moves `updatedAt`. */
  lemma EmptyUpdateOnlyTouches(c: Complaint, now: int)
    ensures ApplyUpdate(c, EmptyBody, now) == c.(updatedAt := now)
  {
  }

  /** Creating and then updating with the same carried fields is the same as creating. */
  lemma UpdateWithCreateBodyIsStable(b: ComplaintBody, owner: UserId, now: int)
    requires CreateValid(b) && b.user.None?
    ensures ApplyUpdate(NewComplaint(b, owner, now), b, now) == NewComplaint(b, owner, now)
  {
    Text.TrimIdempotent(b.title.value);
    Text.TrimIdempotent(b.description.value);
  }
}
