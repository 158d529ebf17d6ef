/** The Letter schema: sender, optional receiver, content, the delivery status, the independent
    moderation status and the review metadata. */
module LetterModel {
  import opened Common
  import opened Text

  /** `status`: enum `draft`, `sent`, `archived`. */
  datatype LetterStatus = Draft | Sent | Archived {
    function Name(): string {
      match this
      case Draft => "draft"
      case Sent => "sent"
      case Archived => "archived"
    }
  }

  /** The delivery status a string names, if it is one of the enum's values. */
  function ParseLetterStatus(s: string): (r: Option<LetterStatus>)
    ensures r.Some? <==> s == "draft" || s == "sent" || s == "archived"
    ensures r.Some? ==> r.value.Name() == s
  {
    if s == "draft" then Some(Draft)
    else if s == "sent" then Some(Sent)
    else if s == "archived" then Some(Archived)
    else None
  }

  /** Every delivery status survives the trip through its stored name. */
  lemma LetterStatusRoundTrip(st: LetterStatus)
    ensures ParseLetterStatus(st.Name()) == Some(st)
  {
  }

  /** `adminReviewStatus`: enum `pending`, `approved`, `rejected`. */
  datatype ReviewStatus = ReviewPending | ReviewApproved | ReviewRejected {
    function Name(): string {
      match this
      case ReviewPending => "pending"
      case ReviewApproved => "approved"
      case ReviewRejected => "rejected"
    }
  }

  datatype Letter = Letter(
    id: Id,
    senderId: Id,
    receiverId: Option<Id>,
    content: string,
    sentAt: Option<Time>,
    status: LetterStatus,
    adminReviewStatus: ReviewStatus,
    adminReviewedAt: Option<Time>,
    adminReviewNote: Option<string>)
  {
    /** What the schema validates on save: the required `content` is not empty. */
    predicate Valid() {
      content != ""
    }
  }

  /** `new Letter({ senderId, content, status })`: the content trimmed, the status given or
      `draft`, review `pending`, no receiver, no review metadata. */
  function NewLetter(id: Id, senderId: Id, content: string, status: Option<LetterStatus>): (l: Letter)
    ensures l.id == id && l.senderId == senderId && l.content == Trim(content)
    ensures l.status == if status.Some? then status.value else Draft
    ensures l.adminReviewStatus == ReviewPending
    ensures l.receiverId == None && l.sentAt == None
    ensures l.adminReviewedAt == None && l.adminReviewNote == None
  {
    Letter(id, senderId, None, Trim(content), None,
           if status.Some? then status.value else Draft, ReviewPending, None, None)
  }

  /** A new letter passes validation exactly when its content is not blank. */
  lemma NewLetterValid(id: Id, senderId: Id, content: string, status: Option<LetterStatus>)
    ensures NewLetter(id, senderId, content, status).Valid() <==> exists i | 0 <= i < |content| :: !IsSpace(content[i])
  {
    BlankIffAllSpace(content);
  }
}
