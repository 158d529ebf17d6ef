/** The letter handlers of a signed-in user: writing a letter (which notifies the
    administrators), the sent and received listings, archiving and deleting a draft. */
module LetterController {
  import opened Common
  import opened Seqs
  import opened Text
  import opened Paging
  import opened UserModel
  import opened LetterModel
  import opened NotificationModel
  import opened Store
  import opened NotificationService

  // ---------------------------------------------------------------------------------------
  // Writing a letter

  /** Leading part of the message of the validation error `letter.save()` throws. */
  const LetterValidationError: string := "Letter validation failed"
  const SubmittedTitle: string := "New Letter Submitted for Review"
  const SubmittedBy: string := "A new letter has been submitted by "

  /** `status || "draft"`: an absent or empty status is the default, any other value must be
      one of the enum's names. */
  predicate StatusAccepted(status: Option<string>) {
    !Truthy(status) || ParseLetterStatus(status.value).Some?
  }

  function RequestedStatus(status: Option<string>): Option<LetterStatus>
    requires StatusAccepted(status)
  {
    if Truthy(status) then ParseLetterStatus(status.value) else None
  }

  /** Whether `new Letter({ senderId, content, status })` passes validation: a valid status
      and a content present and not blank after trimming. */
  predicate LetterAccepted(content: Option<string>, status: Option<string>) {
    StatusAccepted(status) && content.Some? && Trim(content.value) != ""
  }

  /** The constant title passes the title validation, so the notices are always stored. */
  lemma SubmittedTitleValid()
    ensures TitleValid(SubmittedTitle)
  {
  }

  /** The text of that notice, after the schema's `trim`. */
  function SubmissionText(username: string): string {
    Trim(SubmittedBy + username)
  }

  /** The notice every active administrator receives about a new letter. */
  function SubmissionNotice(letterId: Id, username: string): NotificationData {
    NotificationData(None, NewLetterType, SubmittedTitle, Some(SubmissionText(username)), Some(letterId), Some(RelatedLetter))
  }

  /** `createLetter`: stores the new letter, then one notice per active administrator, and
      answers 201 with the letter; an invalid letter is a 500 that stores nothing. The
      administrators are notified whatever the status, a draft included. */
  method CreateLetter(db: Db, caller: User, content: Option<string>, status: Option<string>)
    returns (r: Reply<Letter>)
    requires db.Valid()
    modifies db`letters, db`notifications, db`nextId
    ensures db.Valid()
    ensures r.Ok? <==> LetterAccepted(content, status)
    ensures r.Fail? ==>
      && r == Fail(500, LetterValidationError)
      && db.letters == old(db.letters) && db.notifications == old(db.notifications) && db.nextId == old(db.nextId)
    ensures r.Ok? ==>
      var l := NewLetter(old(db.nextId), caller.id, content.value, RequestedStatus(status));
      && r == Ok(201, l)
      && db.letters == old(db.letters) + [l]
    ensures r.Ok? ==>
      db.notifications == old(db.notifications) + FanOut(SubmissionNotice(old(db.nextId), caller.username), ActiveAdmins(db.users), old(db.nextId) + 1)
  {
    if !LetterAccepted(content, status) {
      return Fail(500, LetterValidationError);
    }
    var letter := NewLetter(db.nextId, caller.id, content.value, RequestedStatus(status));
    var notice := SubmissionNotice(db.nextId, caller.username);
    SaveLetter(db, letter, notice);
    assert notice == SubmissionNotice(old(db.nextId), caller.username) && letter.id == old(db.nextId);
    r := Ok(201, letter);
  }

  /** `letter.save()` of an accepted letter, then the notice to the administrators. */
  method SaveLetter(db: Db, letter: Letter, notice: NotificationData)
    requires db.Valid() && letter.id == db.nextId && notice.title == SubmittedTitle
    modifies db`letters, db`notifications, db`nextId
    ensures db.Valid()
    ensures db.letters == old(db.letters) + [letter]
    ensures db.notifications == old(db.notifications) + FanOut(notice, ActiveAdmins(db.users), letter.id + 1)
  {
    db.AddLetter(letter);
    SubmittedTitleValid();
    NotifyAdmins(db, notice);
  }

  /** A letter written with an explicit valid status keeps it; otherwise it is a draft. Either
      way it waits for review and its content is the trimmed text. */
  lemma CreatedLetterShape(id: Id, caller: User, content: Option<string>, status: Option<string>)
    requires LetterAccepted(content, status)
    ensures var l := NewLetter(id, caller.id, content.value, RequestedStatus(status));
      && l.Valid()
      && l.senderId == caller.id && l.receiverId == None
      && l.content == Trim(content.value)
      && l.adminReviewStatus == ReviewPending
      && (Truthy(status) ==> l.status.Name() == status.value)
      && (!Truthy(status) ==> l.status == Draft)
  {
  }

  /** Every active administrator is told about the new letter exactly once, and nobody else is. */
  lemma SubmissionReachesAdmins(users: seq<User>, bound: Id, letterId: Id, username: string, firstId: Id, u: User)
    requires IdsUniqueBelow(users, UserKey, bound) && u in users
    ensures var batch := FanOut(SubmissionNotice(letterId, username), ActiveAdmins(users), firstId);
      && (IsActiveAdmin(u) ==> |Filter(batch, (n: Notification) => n.userId == u.id)| == 1)
      && (!IsActiveAdmin(u) ==> Filter(batch, (n: Notification) => n.userId == u.id) == [])
  {
    var data := SubmissionNotice(letterId, username);
    var batch := FanOut(data, ActiveAdmins(users), firstId);
    if IsActiveAdmin(u) {
      FanOutReachesActiveAdmins(data, users, firstId);
      FanOutOncePerAdmin(data, users, bound, firstId);
      var k :| 0 <= k < |batch| && batch[k].userId == u.id;
      OnlyOneMatch(batch, (n: Notification) => n.userId == u.id, k);
    } else {
      FanOutSkipsOthers(data, users, bound, firstId, u);
      NoMatch(batch, (n: Notification) => n.userId == u.id);
    }
  }
  /** Every submission notice is a new-letter notice about the letter. */
  lemma SubmissionNoticesAboutLetter(users: seq<User>, letterId: Id, username: string, firstId: Id, k: nat)
    requires k < |ActiveAdmins(users)|
    ensures var batch := FanOut(SubmissionNotice(letterId, username), ActiveAdmins(users), firstId);
      batch[k].relatedId == Some(letterId) && batch[k].kind == NewLetterType
  {
  }


  // ---------------------------------------------------------------------------------------
  // Listings

  /** `{ senderId: caller }`, with `status` added when the parameter is truthy. */
  function SentBy(caller: Id, status: Option<string>): Letter -> bool {
    (l: Letter) => l.senderId == caller && (!Truthy(status) || l.status.Name() == status.value)
  }

  /** `getMyLetters`: the caller's own letters, optionally of one status, newest first. */
  function MyLetters(letters: seq<Letter>, caller: Id, status: Option<string>, q: PageQuery): (r: Reply<Listing<Letter>>)
    ensures r.Ok? <==> PageLimit(q, 10) == 0 || PageNumber(q) >= 1
    ensures r.Ok? ==> r.body.total == Count(letters, SentBy(caller, status))
    ensures r.Ok? ==> forall l | l in r.body.items ::
      l in letters && l.senderId == caller && (Truthy(status) ==> l.status.Name() == status.value)
    ensures r.Ok? && PageLimit(q, 10) > 0 ==> |r.body.items| <= PageLimit(q, 10)
    ensures r.Ok? ==> NewestPage(r.body.items, Filter(letters, SentBy(caller, status)), q, 10)
  {
    NewestFirst(Filter(letters, SentBy(caller, status)), q, 10)
  }

  /** Without a status every letter of the caller is counted, drafts included. */
  lemma MyLettersCountsAllOwn(letters: seq<Letter>, caller: Id, q: PageQuery, l: Letter)
    requires PageLimit(q, 10) == 0
    requires l in letters && l.senderId == caller
    ensures l in MyLetters(letters, caller, None, q).body.items
  {
    var matching := Filter(letters, SentBy(caller, None));
    var items := MyLetters(letters, caller, None, q).body.items;
    var i :| 0 <= i < |matching| && matching[i] == l;
    assert items[|matching| - 1 - i] == l;
  }

  /** `{ receiverId: caller, status: 'sent', adminReviewStatus: 'approved' }`. */
  function DeliveredTo(caller: Id): Letter -> bool {
    (l: Letter) => l.receiverId == Some(caller) && l.status == Sent && l.adminReviewStatus == ReviewApproved
  }

  /** The sort key of `sort({ sentAt: -1 })`: a letter without `sentAt` sorts after all others. */
  function SentAtKey(l: Letter): int {
    if l.sentAt.Some? then l.sentAt.value else -1
  }

  /** `getReceivedLetters`: the approved letters delivered to the caller, latest delivery first. */
  function ReceivedLetters(letters: seq<Letter>, caller: Id, q: PageQuery): (r: Reply<Listing<Letter>>)
    ensures r.Ok? <==> PageLimit(q, 10) == 0 || PageNumber(q) >= 1
    ensures r.Ok? ==> r.body.total == Count(letters, DeliveredTo(caller))
    ensures r.Ok? ==> forall l | l in r.body.items ::
      l in letters && l.receiverId == Some(caller) && l.status == Sent && l.adminReviewStatus == ReviewApproved
    ensures r.Ok? ==> SortedDesc(r.body.items, SentAtKey)
    ensures r.Ok? && PageLimit(q, 10) > 0 ==> |r.body.items| <= PageLimit(q, 10)
    ensures r.Ok? ==> PageAt(r.body.items, SortDesc(Filter(letters, DeliveredTo(caller)), SentAtKey), q, 10)
  {
    var matching := Filter(letters, DeliveredTo(caller));
    var sorted := SortDesc(matching, SentAtKey);
    SameMultisetSameElements(matching, sorted);
    var r := Paginate(sorted, q, 10);
    if r.Ok? then
      PageOfSorted(sorted, SentAtKey, PageNumber(q), PageLimit(q, 10));
      r
    else r
  }

  lemma SameMultisetSameElements<T>(a: seq<T>, b: seq<T>)
    requires multiset(a) == multiset(b)
    ensures |a| == |b|
    ensures forall x | x in b :: x in a
  {
    assert |a| == |multiset(a)| == |multiset(b)| == |b|;
    forall x | x in b ensures x in a {
      assert x in multiset(b);
    }
  }

  /** A page of a sequence sorted largest first is itself sorted largest first. */
  lemma PageOfSorted<T>(sorted: seq<T>, key: T -> int, page: int, limit: nat)
    requires SortedDesc(sorted, key)
    requires PageOf(sorted, page, limit).Some?
    ensures SortedDesc(PageOf(sorted, page, limit).value, key)
  {
    var items := PageOf(sorted, page, limit).value;
    var skip := SkipOf(page, limit);
    forall i | 0 < i < |items| ensures key(items[i - 1]) >= key(items[i]) {
      assert items[i - 1] == sorted[skip + i - 1] && items[i] == sorted[skip + i];
    }
  }

  // ---------------------------------------------------------------------------------------
  // Archiving and deleting drafts

  const LetterNotFound: string := "Letter not found"
  const ArchiveDone: string := "Letter archived successfully"
  const DraftNotFound: string := "Draft letter not found"
  const DraftDeleted: string := "Draft letter deleted successfully"

  /** `{ _id: letterId, $or: [{ senderId: caller }, { receiverId: caller }] }`. */
  function PartyTo(letterId: Id, caller: Id): Letter -> bool {
    (l: Letter) => l.id == letterId && (l.senderId == caller || l.receiverId == Some(caller))
  }

  /** The letters after `archiveLetter`: the caller's letter with that id has status
      `archived`; `None` when the caller is neither its sender nor its receiver. */
  function Archive(letters: seq<Letter>, letterId: Id, caller: Id): (r: Option<seq<Letter>>)
    ensures r.Some? <==> exists j | 0 <= j < |letters| :: PartyTo(letterId, caller)(letters[j])
    ensures r.Some? ==> |r.value| == |letters| && exists j | 0 <= j < |letters| ::
      && PartyTo(letterId, caller)(letters[j])
      && r.value == letters[j := letters[j].(status := Archived)]
  {
    match FindFirst(letters, PartyTo(letterId, caller))
    case None => None
    case Some(i) => Some(letters[i := letters[i].(status := Archived)])
  }

  /** `archiveLetter`: 404 when the caller has no letter with that id, and nothing changes. */
  method ArchiveLetter(db: Db, letterId: Id, caller: Id) returns (r: Reply<string>)
    requires db.Valid()
    modifies db`letters
    ensures db.Valid()
    ensures var after := Archive(old(db.letters), letterId, caller);
      && (after.None? ==> r == Fail(404, LetterNotFound) && db.letters == old(db.letters))
      && (after.Some? ==> r == Ok(200, ArchiveDone) && db.letters == after.value)
  {
    var found := FindFirst(db.letters, PartyTo(letterId, caller));
    if found.None? {
      return Fail(404, LetterNotFound);
    }
    var i := found.value;
    var letter := db.letters[i];
    letter := letter.(status := Archived);
    db.SetLetter(i, letter);
    r := Ok(200, ArchiveDone);
  }

  /** Archiving changes the status of the one letter with that id and nothing else. */
  lemma ArchiveTouchesOnlyThatLetter(letters: seq<Letter>, bound: Id, letterId: Id, caller: Id)
    requires IdsUniqueBelow(letters, LetterKey, bound)
    requires Archive(letters, letterId, caller).Some?
    ensures var after := Archive(letters, letterId, caller).value;
      forall j | 0 <= j < |letters| ::
        if letters[j].id == letterId then after[j] == letters[j].(status := Archived) else after[j] == letters[j]
  {
  }

  /** Archiving twice is archiving once. */
  lemma ArchiveIdempotent(letters: seq<Letter>, letterId: Id, caller: Id)
    requires Archive(letters, letterId, caller).Some?
    ensures Archive(Archive(letters, letterId, caller).value, letterId, caller) == Archive(letters, letterId, caller)
  {
    var p := PartyTo(letterId, caller);
    var i := FindFirst(letters, p).value;
    var once := letters[i := letters[i].(status := Archived)];
    assert p(once[i]);
    assert forall j | 0 <= j < i :: once[j] == letters[j];
    assert FindFirst(once, p) == Some(i);
    assert once[i].(status := Archived) == once[i];
    assert once[i := once[i]] == once;
  }

  /** An archived letter leaves the receiver's inbox: it is not in `getReceivedLetters` of
      anyone any more. */
  lemma ArchivedLeavesInbox(letters: seq<Letter>, letterId: Id, caller: Id, reader: Id)
    requires Archive(letters, letterId, caller).Some?
    ensures var i := FindFirst(letters, PartyTo(letterId, caller)).value;
      var after := Archive(letters, letterId, caller).value;
      !DeliveredTo(reader)(after[i])
  {
  }

  /** `{ _id: letterId, senderId: caller, status: 'draft' }`. */
  function OwnDraft(letterId: Id, caller: Id): Letter -> bool {
    (l: Letter) => l.id == letterId && l.senderId == caller && l.status == Draft
  }

  /** The letters after `deleteDraftLetter`: the caller's draft with that id removed; `None`
      when there is no such draft. */
  function DeleteDraft(letters: seq<Letter>, letterId: Id, caller: Id): (r: Option<seq<Letter>>)
    ensures r.Some? <==> exists j | 0 <= j < |letters| :: OwnDraft(letterId, caller)(letters[j])
    ensures r.Some? ==> |r.value| == |letters| - 1 && exists j | 0 <= j < |letters| ::
      && OwnDraft(letterId, caller)(letters[j])
      && multiset(r.value) == multiset(letters) - multiset{letters[j]}
  {
    match FindFirst(letters, OwnDraft(letterId, caller))
    case None => None
    case Some(i) => Some(RemoveAt(letters, i))
  }

  /** `deleteDraftLetter`: 404 unless the caller has a draft with that id. */
  method DeleteDraftLetter(db: Db, letterId: Id, caller: Id) returns (r: Reply<string>)
    requires db.Valid()
    modifies db`letters
    ensures db.Valid()
    ensures var after := DeleteDraft(old(db.letters), letterId, caller);
      && (after.None? ==> r == Fail(404, DraftNotFound) && db.letters == old(db.letters))
      && (after.Some? ==> r == Ok(200, DraftDeleted) && db.letters == after.value)
  {
    var found := FindFirst(db.letters, OwnDraft(letterId, caller));
    if found.None? {
      return Fail(404, DraftNotFound);
    }
    db.RemoveLetter(found.value);
    r := Ok(200, DraftDeleted);
  }

  /** After the deletion no letter with that id is left, and every other letter is kept. */
  lemma DeleteDraftRemovesOnlyIt(letters: seq<Letter>, bound: Id, letterId: Id, caller: Id)
    requires IdsUniqueBelow(letters, LetterKey, bound)
    requires DeleteDraft(letters, letterId, caller).Some?
    ensures var after := DeleteDraft(letters, letterId, caller).value;
      && (forall l | l in after :: l.id != letterId)
      && (forall l | l in letters && l.id != letterId :: l in after)
  {
    var i := FindFirst(letters, OwnDraft(letterId, caller)).value;
    var after := RemoveAt(letters, i);
    forall l | l in after ensures l.id != letterId {
      var j :| 0 <= j < |after| && after[j] == l;
      var src := if j < i then j else j + 1;
      assert after[j] == letters[src] && src != i;
      if src < i {
        assert LetterKey(letters[src]) != LetterKey(letters[i]);
      } else {
        assert LetterKey(letters[i]) != LetterKey(letters[src]);
      }
    }
    forall l | l in letters && l.id != letterId ensures l in after {
      var j :| 0 <= j < |letters| && letters[j] == l;
      assert j != i;
      if j < i {
        assert after[j] == l;
      } else {
        assert after[j - 1] == l;
      }
    }
  }

  /** A letter that is not a draft is never deleted. */
  lemma OnlyDraftsDeleted(letters: seq<Letter>, letterId: Id, caller: Id)
    requires forall j | 0 <= j < |letters| :: letters[j].id == letterId ==> letters[j].status != Draft
    ensures DeleteDraft(letters, letterId, caller).None?
  {
  }
}
