/** The administrator's handlers: the moderation queue, the review that approves or rejects a
    letter and routes an approved one to a random eligible user, the letter listing and the
    dashboard figures. Every handler here sits behind `requireAdmin`. */
module AdminController {
  import opened Common
  import opened Seqs
  import opened Text
  import opened Paging
  import opened UserModel
  import opened LetterModel
  import opened PaymentModel
  import opened NotificationModel
  import opened Store
  import opened NotificationService

  // ---------------------------------------------------------------------------------------
  // Listings

  /** `{ adminReviewStatus: 'pending', status: 'sent' }`: submitted and waiting for review. */
  predicate AwaitingReview(l: Letter) {
    l.adminReviewStatus == ReviewPending && l.status == Sent
  }

  /** `getPendingLetters`: the letters awaiting review, newest first, 10 per page by default. */
  function PendingLetters(letters: seq<Letter>, q: PageQuery): (r: Reply<Listing<Letter>>)
    ensures r.Ok? <==> PageLimit(q, 10) == 0 || PageNumber(q) >= 1
    ensures r.Ok? ==> r.body.total == Count(letters, AwaitingReview)
    ensures r.Ok? ==> forall l | l in r.body.items :: l in letters && l.adminReviewStatus == ReviewPending && l.status == Sent
    ensures r.Ok? && PageLimit(q, 10) > 0 ==> |r.body.items| <= PageLimit(q, 10)
    ensures r.Ok? ==> NewestPage(r.body.items, Filter(letters, AwaitingReview), q, 10)
  {
    NewestFirst(Filter(letters, AwaitingReview), q, 10)
  }

  /** The filter of `getAllLetters`: each of the two query parameters, when truthy, must
      equal the letter's stored value. */
  function MatchesLetterQuery(status: Option<string>, review: Option<string>): Letter -> bool {
    (l: Letter) => (!Truthy(status) || l.status.Name() == status.value)
         && (!Truthy(review) || l.adminReviewStatus.Name() == review.value)
  }

  /** `getAllLetters`: the letters matching the optional `status` and `adminReviewStatus`. */
  function AllLetters(letters: seq<Letter>, status: Option<string>, review: Option<string>, q: PageQuery): (r: Reply<Listing<Letter>>)
    ensures r.Ok? <==> PageLimit(q, 10) == 0 || PageNumber(q) >= 1
    ensures r.Ok? ==> r.body.total == Count(letters, MatchesLetterQuery(status, review))
    ensures r.Ok? ==> forall l | l in r.body.items ::
      && l in letters
      && (Truthy(status) ==> l.status.Name() == status.value)
      && (Truthy(review) ==> l.adminReviewStatus.Name() == review.value)
    ensures r.Ok? && PageLimit(q, 10) > 0 ==> |r.body.items| <= PageLimit(q, 10)
    ensures r.Ok? ==> NewestPage(r.body.items, Filter(letters, MatchesLetterQuery(status, review)), q, 10)
  {
    NewestFirst(Filter(letters, MatchesLetterQuery(status, review)), q, 10)
  }

  /** Without filters the listing counts every letter. */
  lemma AllLettersUnfiltered(letters: seq<Letter>, q: PageQuery)
    requires PageLimit(q, 10) == 0 || PageNumber(q) >= 1
    ensures AllLetters(letters, None, None, q).body.total == |letters|
  {
    FilterAll(letters, MatchesLetterQuery(None, None));
  }

  /** A status that is not one of the enum's names matches nothing. */
  lemma AllLettersUnknownStatus(letters: seq<Letter>, status: string, q: PageQuery)
    requires status != "draft" && status != "sent" && status != "archived" && status != ""
    requires PageLimit(q, 10) == 0 || PageNumber(q) >= 1
    ensures AllLetters(letters, Some(status), None, q).body.total == 0
  {
    var p := MatchesLetterQuery(Some(status), None);
    if Filter(letters, p) != [] {
      assert Filter(letters, p)[0] in Filter(letters, p);
    }
  }

  // ---------------------------------------------------------------------------------------
  // Dashboard

  datatype DashboardStats = DashboardStats(
    totalUsers: nat,
    totalLetters: nat,
    pendingLetters: nat,
    approvedLetters: nat,
    rejectedLetters: nat,
    totalPayments: nat,
    completedPayments: nat,
    pendingPayments: nat,
    totalRevenue: int)

  predicate IsActiveMember(u: User) { u.roleName == RoleUser && u.isActive }
  predicate IsSent(l: Letter) { l.status == Sent }
  predicate ApprovedSent(l: Letter) { l.adminReviewStatus == ReviewApproved && l.status == Sent }
  predicate RejectedSent(l: Letter) { l.adminReviewStatus == ReviewRejected && l.status == Sent }
  predicate IsCompleted(p: Payment) { p.status == PaymentCompleted }
  predicate IsPendingPayment(p: Payment) { p.status == PaymentPending }

  /** The sum of the amounts of the completed payments: the `$match`/`$group` aggregate, and
      0 when no payment is completed. */
  function Revenue(ps: seq<Payment>): int {
    if ps == [] then 0 else (if IsCompleted(ps[0]) then ps[0].amount else 0) + Revenue(ps[1..])
  }

  /** A new payment adds its amount to the revenue exactly when it is completed. */
  lemma {:induction false} RevenueAppend(ps: seq<Payment>, p: Payment)
    ensures Revenue(ps + [p]) == Revenue(ps) + (if IsCompleted(p) then p.amount else 0)
  {
    if ps == [] {
      assert [] + [p] == [p];
    } else {
      assert (ps + [p])[1..] == ps[1..] + [p];
      RevenueAppend(ps[1..], p);
    }
  }

  /** Revenue only counts completed payments: with none completed it is 0. */
  lemma {:induction false} RevenueWithoutCompleted(ps: seq<Payment>)
    requires forall k | 0 <= k < |ps| :: !IsCompleted(ps[k])
    ensures Revenue(ps) == 0
  {
    if ps != [] {
      RevenueWithoutCompleted(ps[1..]);
    }
  }

  /** The dashboard's revenue is 0 when it counts no completed payment. */
  lemma RevenueNeedsCompleted(ps: seq<Payment>)
    ensures Count(ps, IsCompleted) == 0 ==> Revenue(ps) == 0
  {
    if Count(ps, IsCompleted) == 0 {
      assert forall k | 0 <= k < |ps| :: IsCompleted(ps[k]) ==> ps[k] in Filter(ps, IsCompleted);
      RevenueWithoutCompleted(ps);
    }
  }

  /** With no negative amounts the revenue is the largest it can be on the completed ones and
      never negative. */
  lemma {:induction false} RevenueNonNegative(ps: seq<Payment>)
    requires forall k | 0 <= k < |ps| :: ps[k].amount >= 0
    ensures Revenue(ps) >= 0
  {
    if ps != [] {
      RevenueNonNegative(ps[1..]);
    }
  }

  /** `getDashboardStats`: the eight counts and the revenue. */
  function Dashboard(users: seq<User>, letters: seq<Letter>, payments: seq<Payment>): (s: DashboardStats)
    ensures s.totalLetters == |letters| && s.totalPayments == |payments|
    ensures s.totalUsers == Count(users, IsActiveMember) && s.totalUsers <= |users|
    ensures s.pendingLetters == Count(letters, AwaitingReview)
    ensures s.approvedLetters == Count(letters, ApprovedSent)
    ensures s.rejectedLetters == Count(letters, RejectedSent)
    ensures s.completedPayments == Count(payments, IsCompleted)
    ensures s.pendingPayments == Count(payments, IsPendingPayment)
    ensures s.totalRevenue == Revenue(payments)
    ensures s.pendingLetters + s.approvedLetters + s.rejectedLetters == Count(letters, IsSent)
    ensures s.completedPayments + s.pendingPayments <= s.totalPayments
    ensures s.completedPayments == 0 ==> s.totalRevenue == 0
  {
    ReviewsPartitionSent(letters);
    CountDisjoint(payments, IsCompleted, IsPendingPayment);
    RevenueNeedsCompleted(payments);
    DashboardStats(
      Count(users, IsActiveMember),
      |letters|,
      Count(letters, AwaitingReview),
      Count(letters, ApprovedSent),
      Count(letters, RejectedSent),
      |payments|,
      Count(payments, IsCompleted),
      Count(payments, IsPendingPayment),
      Revenue(payments))
  }

  /** Every sent letter is counted in exactly one of the pending, approved and rejected figures. */
  lemma {:induction false} ReviewsPartitionSent(letters: seq<Letter>)
    ensures Count(letters, AwaitingReview) + Count(letters, ApprovedSent) + Count(letters, RejectedSent) == Count(letters, IsSent)
  {
    if letters != [] {
      ReviewsPartitionSent(letters[1..]);
    }
  }

  /** Two predicates no record satisfies together count at most the whole collection; a record
      that satisfies neither leaves room. */
  lemma {:induction false} CountDisjoint<T>(s: seq<T>, p: T -> bool, q: T -> bool)
    requires forall x | x in s :: !(p(x) && q(x))
    ensures Count(s, p) + Count(s, q) <= |s|
  {
    if s != [] {
      assert forall x | x in s[1..] :: x in s;
      CountDisjoint(s[1..], p, q);
    }
  }

  // ---------------------------------------------------------------------------------------
  // Review and routing

  const ReviewStatusError: string := "Status must be approved or rejected"
  const LetterNotFound: string := "Letter not found"
  const AlreadyReviewed: string := "Letter has already been reviewed"

  const NewLetterTitle: string := "Bạn vừa nhận được một lá thư mới!"
  const NewLetterContent: string := "Ai đó đã gửi cho bạn một lá thư ẩn danh."
  const ApprovedTitle: string := "Lá thư của bạn đã được phê duyệt"
  const ApprovedAndSent: string := ApprovedTitle + " và gửi đến một người dùng ngẫu nhiên"
  const ApprovedNoReceiver: string := ApprovedTitle + " nhưng hiện tại chưa có người dùng phù hợp để nhận"
  const RejectedTitle: string := "Lá thư của bạn đã bị từ chối"
  const RejectedDefault: string := "Lá thư của bạn đã bị quản trị viên từ chối"

  /** The constant notice titles pass the title validation. */
  lemma NoticeTitlesValid()
    ensures TitleValid(NewLetterTitle) && TitleValid(ApprovedTitle) && TitleValid(RejectedTitle)
  {
  }

  /** The constant notice texts have no surrounding white space, so the schema's `trim` keeps them. */
  lemma NoticeTextsBare()
    ensures Bare(NewLetterContent) && Bare(ApprovedAndSent) && Bare(ApprovedNoReceiver) && Bare(RejectedDefault)
  {
    assert NewLetterContent[|NewLetterContent| - 1] == '.';
    assert ApprovedTitle[0] == 'L';
    assert ApprovedAndSent[0] == ApprovedTitle[0] && ApprovedAndSent[|ApprovedAndSent| - 1] == 'n';
    assert ApprovedNoReceiver[0] == ApprovedTitle[0] && ApprovedNoReceiver[|ApprovedNoReceiver| - 1] == 'n';
    assert RejectedDefault[|RejectedDefault| - 1] == 'i';
  }

  /** `Letter.findById(id)`. */
  function LetterIndex(letters: seq<Letter>, id: Id): (r: Option<nat>)
    ensures r.Some? ==> r.value < |letters| && letters[r.value].id == id
    ensures r.None? <==> forall j | 0 <= j < |letters| :: letters[j].id != id
  {
    FindFirst(letters, (l: Letter) => l.id == id)
  }

  /** `{ isActive: true, roleName: 'user', _id: { $ne: senderId } }`. */
  function IsCandidate(sender: Id): User -> bool {
    (u: User) => u.isActive && u.roleName == RoleUser && u.id != sender
  }

  /** Letters approved to `receiver` with a review time during `day`. */
  function ApprovedToOn(receiver: Id, day: nat): Letter -> bool {
    (l: Letter) => l.receiverId == Some(receiver) && l.adminReviewStatus == ReviewApproved
         && l.adminReviewedAt.Some? && DayOf(l.adminReviewedAt.value) == day
  }

  /** How many letters were approved to `receiver` today (the `countDocuments` of the loop). */
  function ReceivedOn(letters: seq<Letter>, receiver: Id, day: nat): nat {
    Count(letters, ApprovedToOn(receiver, day))
  }

  /** The membership rule of the loop: a VIP always takes a letter, a basic user only while
      no letter was approved to them today, any other tier never. */
  function HasCapacity(letters: seq<Letter>, day: nat): User -> bool {
    (u: User) => u.membership == Vip || (u.membership == Basic && ReceivedOn(letters, u.id, day) < 1)
  }

  /** The eligibility rule of a review on `day` of a letter by `sender`: an active user other
      than the sender, VIP, or basic with no letter approved to them that day. */
  predicate Eligible(u: User, sender: Id, letters: seq<Letter>, day: nat) {
    && u.isActive && u.roleName == RoleUser && u.id != sender
    && (u.membership == Vip || (u.membership == Basic && ReceivedOn(letters, u.id, day) == 0))
  }

  /** The `filteredUsers` the receiver is drawn from. */
  function EligibleReceivers(users: seq<User>, sender: Id, letters: seq<Letter>, day: nat): seq<User> {
    Filter(Filter(users, IsCandidate(sender)), HasCapacity(letters, day))
  }

  /** The users the receiver is drawn from are exactly the eligible ones. */
  lemma EligibleReceiversExactly(users: seq<User>, sender: Id, letters: seq<Letter>, day: nat, u: User)
    ensures u in EligibleReceivers(users, sender, letters, day) <==> u in users && Eligible(u, sender, letters, day)
  {
    var candidates := Filter(users, IsCandidate(sender));
    if u in users && Eligible(u, sender, letters, day) {
      assert u in candidates;
    }
  }

  /** The loop over the candidates that keeps those with capacity, in their order. */
  method CollectEligible(candidates: seq<User>, letters: seq<Letter>, day: nat) returns (filtered: seq<User>)
    ensures filtered == Filter(candidates, HasCapacity(letters, day))
  {
    filtered := [];
    for i := 0 to |candidates|
      invariant filtered == Filter(candidates[..i], HasCapacity(letters, day))
    {
      var user := candidates[i];
      assert candidates[..i + 1] == candidates[..i] + [user];
      FilterAppend(candidates[..i], [user], HasCapacity(letters, day));
      if user.membership == Vip {
        filtered := filtered + [user];
      } else if user.membership == Basic {
        var todayReceivedCount := ReceivedOn(letters, user.id, day);
        if todayReceivedCount < 1 {
          filtered := filtered + [user];
        }
      }
    }
    assert candidates[..|candidates|] == candidates;
  }

  /** The notice to the chosen receiver. */
  function ReceiverNotice(letterId: Id, receiver: Id): NotificationData {
    NotificationData(Some(receiver), NewLetterType, NewLetterTitle, Some(NewLetterContent), Some(letterId), Some(RelatedLetter))
  }

  /** The notice to the sender of an approved letter: its text says whether a receiver was found. */
  function ApprovalNotice(l: Letter): NotificationData {
    NotificationData(Some(l.senderId), LetterApprovedType, ApprovedTitle,
                     Some(if l.receiverId.Some? then ApprovedAndSent else ApprovedNoReceiver), Some(l.id), Some(RelatedLetter))
  }

  /** The notice to the sender of a rejected letter: the reviewer's note, or the default text. */
  function RejectionNotice(l: Letter, note: Option<string>): NotificationData {
    NotificationData(Some(l.senderId), LetterRejectedType, RejectedTitle,
                     Some(if Truthy(note) then Trim(note.value) else RejectedDefault), Some(l.id), Some(RelatedLetter))
  }

  /** The review decision a body `status` names. */
  predicate IsDecision(status: string) {
    status == "approved" || status == "rejected"
  }

  /** The letter a review of `l` saves: the decision, its time and the trimmed note, and for
      an approval with eligible users the chosen receiver, status `sent` and `sentAt`. */
  function Reviewed(l: Letter, approve: bool, note: Option<string>, now: Time, pick: nat, eligible: seq<User>): Letter {
    var decided := l.(adminReviewStatus := if approve then ReviewApproved else ReviewRejected,
                      adminReviewedAt := Some(now),
                      adminReviewNote := TrimOpt(note));
    if approve && eligible != [] then
      decided.(receiverId := Some(eligible[PickIndex(pick, |eligible|)].id), status := Sent, sentAt := Some(now))
    else decided
  }

  /** The notifications a review of `l` stores, numbered from `firstId`: the receiver's
      `new_letter` notice when one was chosen, then the sender's decision notice. */
  function ReviewNotices(l: Letter, approve: bool, note: Option<string>, now: Time, pick: nat,
                         eligible: seq<User>, firstId: Id): seq<Notification>
  {
    var reviewed := Reviewed(l, approve, note, now, pick, eligible);
    if !approve then [Materialize(RejectionNotice(l, note), l.senderId, firstId)]
    else if eligible == [] then [Materialize(ApprovalNotice(reviewed), l.senderId, firstId)]
    else
      var receiver := eligible[PickIndex(pick, |eligible|)].id;
      [Materialize(ReceiverNotice(l.id, receiver), receiver, firstId),
       Materialize(ApprovalNotice(reviewed), l.senderId, firstId + 1)]
  }

  /** `reviewLetter(letterId, { status, note })` at time `now`; `pick` stands for
      `Math.random()` and selects `filteredUsers[PickIndex(pick, filteredUsers.length)]`. The three
      guards answer an error and change nothing; a review of a pending letter saves
      `Reviewed` in its place and stores `ReviewNotices`. */
  method ReviewLetter(db: Db, letterId: Id, status: string, note: Option<string>, now: Time, pick: nat)
    returns (r: Reply<Letter>)
    requires db.Valid()
    modifies db`letters, db`notifications, db`nextId
    ensures db.Valid()
    ensures !IsDecision(status) ==> r == Fail(400, ReviewStatusError)
    ensures IsDecision(status) && LetterIndex(old(db.letters), letterId).None? ==> r == Fail(404, LetterNotFound)
    ensures IsDecision(status) && LetterIndex(old(db.letters), letterId).Some? &&
            old(db.letters)[LetterIndex(old(db.letters), letterId).value].adminReviewStatus != ReviewPending
            ==> r == Fail(400, AlreadyReviewed)
    ensures r.Fail? ==> db.letters == old(db.letters) && db.notifications == old(db.notifications) && db.nextId == old(db.nextId)
    ensures IsDecision(status) && LetterIndex(old(db.letters), letterId).Some? &&
            old(db.letters)[LetterIndex(old(db.letters), letterId).value].adminReviewStatus == ReviewPending ==>
      var i := LetterIndex(old(db.letters), letterId).value;
      var l := old(db.letters)[i];
      var eligible := EligibleReceivers(old(db.users), l.senderId, old(db.letters), DayOf(now));
      && r == Ok(200, Reviewed(l, status == "approved", note, now, pick, eligible))
      && db.letters == old(db.letters)[i := r.body]
      && db.notifications == old(db.notifications) + ReviewNotices(l, status == "approved", note, now, pick, eligible, old(db.nextId))
  {
    if !IsDecision(status) {
      return Fail(400, ReviewStatusError);
    }
    var found := LetterIndex(db.letters, letterId);
    if found.None? {
      return Fail(404, LetterNotFound);
    }
    var i := found.value;
    var letter := db.letters[i];
    if letter.adminReviewStatus != ReviewPending {
      return Fail(400, AlreadyReviewed);
    }
    letter := Review(db, i, letter, status == "approved", note, now, pick);
    r := Ok(200, letter);
  }

  /** The body of a review of the pending letter `l` stored at position `i`. */
  method Review(db: Db, i: nat, l: Letter, approve: bool, note: Option<string>, now: Time, pick: nat)
    returns (letter: Letter)
    requires db.Valid() && i < |db.letters| && db.letters[i] == l
    modifies db`letters, db`notifications, db`nextId
    ensures db.Valid()
    ensures var eligible := EligibleReceivers(old(db.users), l.senderId, old(db.letters), DayOf(now));
      && letter == Reviewed(l, approve, note, now, pick, eligible)
      && db.letters == old(db.letters)[i := letter]
      && db.notifications == old(db.notifications) + ReviewNotices(l, approve, note, now, pick, eligible, old(db.nextId))
  {
    NoticeTitlesValid();
    letter := l.(adminReviewStatus := if approve then ReviewApproved else ReviewRejected,
                 adminReviewedAt := Some(now),
                 adminReviewNote := TrimOpt(note));
    if approve {
      letter := Route(db, letter, now, pick);
    } else {
      Notify(db, RejectionNotice(letter, note));
    }
    db.SetLetter(i, letter);
  }

  /** The routing of an approved letter: the receiver drawn from the eligible users and its
      notice, then the sender's approval notice. */
  method Route(db: Db, decided: Letter, now: Time, pick: nat) returns (letter: Letter)
    requires db.Valid()
    modifies db`notifications, db`nextId
    ensures db.Valid()
    ensures var eligible := EligibleReceivers(db.users, decided.senderId, db.letters, DayOf(now));
      && letter == (if eligible != [] then decided.(receiverId := Some(eligible[PickIndex(pick, |eligible|)].id), status := Sent, sentAt := Some(now)) else decided)
      && db.notifications == old(db.notifications) + (
           if eligible == [] then [Materialize(ApprovalNotice(letter), decided.senderId, old(db.nextId))]
           else [Materialize(ReceiverNotice(decided.id, letter.receiverId.value), letter.receiverId.value, old(db.nextId)),
                 Materialize(ApprovalNotice(letter), decided.senderId, old(db.nextId) + 1)])
  {
    NoticeTitlesValid();
    ghost var before, firstId := db.notifications, db.nextId;
    letter := decided;
    var chosen := ChooseReceiver(db.users, decided.senderId, db.letters, DayOf(now), pick);
    if chosen.Some? {
      var receiver := chosen.value;
      letter := letter.(receiverId := Some(receiver.id), status := Sent, sentAt := Some(now));
      var toReceiver, toSender := ReceiverNotice(letter.id, receiver.id), ApprovalNotice(letter);
      Notify(db, toReceiver);
      Notify(db, toSender);
      assert db.notifications == before + [Materialize(toReceiver, receiver.id, firstId)]
                                        + [Materialize(toSender, decided.senderId, firstId + 1)];
    } else {
      Notify(db, ApprovalNotice(letter));
    }
  }

  /** The draw of `filteredUsers[Math.floor(Math.random() * filteredUsers.length)]`, or none
      when no user is eligible. */
  method ChooseReceiver(users: seq<User>, sender: Id, letters: seq<Letter>, day: nat, pick: nat)
    returns (chosen: Option<User>)
    ensures var eligible := EligibleReceivers(users, sender, letters, day);
      chosen == if eligible == [] then None else Some(eligible[PickIndex(pick, |eligible|)])
  {
    var candidates := Filter(users, IsCandidate(sender));
    var filteredUsers := CollectEligible(candidates, letters, day);
    if |filteredUsers| > 0 {
      chosen := Some(filteredUsers[PickIndex(pick, |filteredUsers|)]);
    } else {
      chosen := None;
    }
  }

  /** A review records the decision, its time and the trimmed note, and keeps the letter's
      identity, sender and content. */
  lemma ReviewRecordsDecision(l: Letter, approve: bool, note: Option<string>, now: Time, pick: nat, eligible: seq<User>)
    ensures var v := Reviewed(l, approve, note, now, pick, eligible);
      && v.adminReviewStatus == (if approve then ReviewApproved else ReviewRejected)
      && v.adminReviewStatus != ReviewPending
      && v.adminReviewedAt == Some(now) && v.adminReviewNote == TrimOpt(note)
      && v.id == l.id && v.senderId == l.senderId && v.content == l.content
  {
  }

  /** An approval with eligible users delivers the letter to one of them, never its sender;
      without eligible users, or on a rejection, receiver, status and `sentAt` are kept. */
  lemma ReviewRoutes(users: seq<User>, l: Letter, approve: bool, note: Option<string>, now: Time, pick: nat, letters: seq<Letter>)
    ensures var eligible := EligibleReceivers(users, l.senderId, letters, DayOf(now));
      var v := Reviewed(l, approve, note, now, pick, eligible);
      && (approve && eligible != [] ==>
            && v.status == Sent && v.sentAt == Some(now) && v.receiverId.Some?
            && v.receiverId.value != l.senderId
            && exists u | u in users :: u.id == v.receiverId.value && Eligible(u, l.senderId, letters, DayOf(now)))
      && (!approve || eligible == [] ==>
            v.receiverId == l.receiverId && v.status == l.status && v.sentAt == l.sentAt)
  {
    var eligible := EligibleReceivers(users, l.senderId, letters, DayOf(now));
    if approve && eligible != [] {
      var u := eligible[PickIndex(pick, |eligible|)];
      assert u in eligible;
    }
  }

  /** The sender of a reviewed letter gets exactly one notice: `letter_approved`, or
      `letter_rejected` carrying the note or the default text. */
  lemma ReviewNotifiesSenderOnce(l: Letter, approve: bool, note: Option<string>, now: Time, pick: nat,
                                 eligible: seq<User>, firstId: Id)
    requires forall u | u in eligible :: u.id != l.senderId
    ensures var mine := Filter(ReviewNotices(l, approve, note, now, pick, eligible, firstId), ForUser(l.senderId));
      && |mine| == 1
      && mine[0].kind == (if approve then LetterApprovedType else LetterRejectedType)
      && mine[0].relatedId == Some(l.id) && mine[0].relatedType == Some(RelatedLetter) && !mine[0].isRead
      && (!approve ==> mine[0].content == Some(if Truthy(note) then Trim(note.value) else RejectedDefault))
  {
    var ns := ReviewNotices(l, approve, note, now, pick, eligible, firstId);
    if approve && eligible != [] {
      assert eligible[PickIndex(pick, |eligible|)] in eligible;
      FilterTwo(ns[0], ns[1], ForUser(l.senderId));
    } else {
      FilterOne(ns[0], ForUser(l.senderId));
    }
  }

  /** A receiver chosen by an approval gets exactly one `new_letter` notice; otherwise the
      notices go to the sender alone. */
  lemma ReviewNotifiesReceiverOnce(l: Letter, approve: bool, note: Option<string>, now: Time, pick: nat,
                                   eligible: seq<User>, firstId: Id)
    requires forall u | u in eligible :: u.id != l.senderId
    ensures var ns := ReviewNotices(l, approve, note, now, pick, eligible, firstId);
      && (approve && eligible != [] ==>
            var mine := Filter(ns, ForUser(eligible[PickIndex(pick, |eligible|)].id));
            |mine| == 1 && mine[0].kind == NewLetterType && mine[0].relatedId == Some(l.id))
      && (!approve || eligible == [] ==> forall n | n in ns :: n.userId == l.senderId)
  {
    var ns := ReviewNotices(l, approve, note, now, pick, eligible, firstId);
    if approve && eligible != [] {
      var receiver := eligible[PickIndex(pick, |eligible|)];
      assert receiver in eligible;
      FilterTwo(ns[0], ns[1], ForUser(receiver.id));
    }
  }

  /** Whether a notification belongs to `user`. */
  function ForUser(user: Id): Notification -> bool {
    (n: Notification) => n.userId == user
  }

  /** The receiver a review picks is eligible: an active user other than the sender, VIP or a
      basic user with no letter yet today. */
  lemma PickedReceiverEligible(users: seq<User>, sender: Id, letters: seq<Letter>, day: nat, pick: nat)
    requires EligibleReceivers(users, sender, letters, day) != []
    ensures var eligible := EligibleReceivers(users, sender, letters, day);
      var u := eligible[PickIndex(pick, |eligible|)];
      u in users && Eligible(u, sender, letters, day)
  {
    var eligible := EligibleReceivers(users, sender, letters, day);
    assert eligible[PickIndex(pick, |eligible|)] in eligible;
  }

  /** Every eligible user can be the one picked. */
  lemma EveryEligibleCanBePicked(users: seq<User>, sender: Id, letters: seq<Letter>, day: nat, u: User)
    requires u in EligibleReceivers(users, sender, letters, day)
    ensures var eligible := EligibleReceivers(users, sender, letters, day);
      exists pick: nat | pick < |eligible| :: eligible[PickIndex(pick, |eligible|)] == u
  {
    var eligible := EligibleReceivers(users, sender, letters, day);
    var k :| 0 <= k < |eligible| && eligible[k] == u;
    assert eligible[PickIndex(k, |eligible|)] == u;
  }

  /** A basic user who received an approved letter today is not eligible again that day. */
  lemma BasicOncePerDay(users: seq<User>, sender: Id, letters: seq<Letter>, day: nat, u: User, l: Letter)
    requires u.membership == Basic && l in letters && ApprovedToOn(u.id, day)(l)
    ensures u !in EligibleReceivers(users, sender, letters, day)
  {
    assert l in Filter(letters, ApprovedToOn(u.id, day));
  }
}
