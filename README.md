# cosmic-box backend: a verified model of its workflows

cosmic-box is an anonymous-letter service with paid chat. A user writes a letter. An
administrator reviews it, and an approved letter goes to a randomly chosen eligible user.
A VIP user may receive any number of letters a day, a basic user only one. A user may also
pay a fee to send a connection request to another user. Once the fee is paid, the receiver
may accept the request, which opens a chat between the two, or reject it with a reason.
Every step produces notifications. Payments run through an external provider, which reports
the outcome through a webhook.

This project models the request handlers of the seven controllers (admin, letter,
connection, payment, chat, notification, user), the notification service, the payment-link
service and the schemas they store. The document database is replaced by an in-memory store,
`Store.Db`. It has one sequence per collection, kept in insertion order, so "newest first" is
the reverse order. It also has a counter that hands out fresh document ids. `Db.Valid()`
is the store's invariant, and every handler that writes keeps it:

- ids are unique within each collection and below the counter;
- every conversation belongs to an accepted connection request, and no two conversations
  belong to the same request;
- the sender and the receiver of every connection request are stored users;
- payment order codes are unique.

What the handlers query and answer is stated as functions over the collections. Handlers
that change data are methods over the store. Each method states the complete new state of
every collection it may modify. Every error path leaves the store as it was, except two 500
answers that come after a save: a failed payment link keeps the new connection request, and an
acceptance whose conversation fails validation keeps the accepted request.

Module layout:

- `Common`, `Seqs`, `Text` and `Paging` hold shared definitions:
  - results and replies;
  - the abstract clock and the random pick;
  - sequence filters, counts and sorting;
  - JavaScript's `trim`;
  - the `sort/limit/skip` pagination common to every listing.
- `UserModel`, `LetterModel`, `ConnectionRequestModel`, `ConversationModel`, `MessageModel`,
  `NotificationModel` and `PaymentModel` model the records and their schema validation.
- `Store` holds the database and its invariant.
- `NotificationService` and `PaymentService` model the two services.
- One module per controller holds its handlers.

Where the code and the intended design differ, this model follows the code:

- `createLetter` applies no daily quota.
- `createLetter` notifies the administrators whatever the new letter's status, drafts
  included.
- `reviewLetter` checks only `adminReviewStatus`, not the delivery status.
- `upgradeToVip` only creates a payment link. It does not change `membership`.
- `getPaymentHistory` filters on a `description` field that payments do not have (see
  Findings).
- `respondToConnectionRequest` names the conversation without a length cap, so an acceptance
  between two long user names saves the accepted request and then fails (see Findings).

## Model

| member | source | states |
|---|---|---|
| Common.DayOf | src/controllers/adminController.js:71-74 | the calendar day of a clock reading is the unique day whose span of ticks contains it ("today" of the routing rule) |
| Common.PickIndex | src/controllers/adminController.js:100-101 | the random draw gives an index inside the candidate list, and any index below the length can be drawn |
| Text.TrimStartShape | src/models/Letter.js:14-18 | leading trim removes only white space and leaves a suffix that starts with a non-space |
| Text.TrimEndShape | src/models/Letter.js:14-18 | trailing trim removes only white space and leaves a prefix that ends with a non-space |
| Text.TrimIsInfix | src/models/Notification.js:19-22 | a trimmed value is a contiguous piece of the input, with white space only around it |
| Text.TrimEnds | src/models/Notification.js:19-22 | a trimmed value neither starts nor ends with white space |
| Text.BlankIffAllSpace | src/controllers/connectionController.js:150-157 | a text trims to empty exactly when every character is white space, which is what the rejection-reason check rejects |
| Text.TrimIdempotent | src/models/Letter.js:14-18 | trimming a stored value again changes nothing, so re-saving keeps it |
| Text.BareTrimsToItself | src/models/Notification.js:19-22 | a text with no surrounding white space is stored unchanged |
| Paging.CeilDiv | src/controllers/adminController.js:27 | `Math.ceil(total / limit)` is the least page count whose pages hold every record |
| Paging.TotalPages | src/controllers/adminController.js:27 | `totalPages` holds all records in the fewest pages, and is null exactly when there is no limit |
| Paging.PageOf | src/controllers/adminController.js:17-18 | `limit/skip` gives at most `limit` records taken in order from position `(page-1)*limit`; a page below 1 with a limit is the negative-skip error; limit 0 returns everything |
| Paging.Paginate | src/controllers/adminController.js:24-30 | the reply is 500 exactly when the skip is negative; otherwise it carries the page of the sorted records at the queried positions, `total`, `currentPage` and `totalPages` |
| Paging.NewestFirst | src/controllers/adminController.js:17-30 | the listing over newest-first order: the reply status, `total` as the number of matching records, and a page holding as many records as fit past the skip, item `k` being the `skip + k`-th newest match |
| Paging.PageCovers | src/controllers/adminController.js:17-18 | every record is on exactly the page its position puts it, at the place the position says |
| Paging.PastLastPageEmpty | src/controllers/adminController.js:17-18 | a page past `totalPages` is empty, not an error |
| UserModel.MembershipNameInjective | src/controllers/adminController.js:79-84 | each stored `membership` string stands for exactly one tier, so the `vip` and `basic` comparisons see the tier the model holds |
| LetterModel.ParseLetterStatus | src/models/Letter.js:22-26 | a string names a delivery status exactly when it is `draft`, `sent` or `archived`, and it names that status |
| LetterModel.LetterStatusRoundTrip | src/models/Letter.js:22-26 | every delivery status parses back from its stored name |
| LetterModel.NewLetter | src/models/Letter.js:4-38 | a new letter has trimmed content and the given status (default `draft`); it is pending review, with no receiver, send time or review |
| LetterModel.NewLetterValid | src/models/Letter.js:14-18 | a new letter passes validation exactly when its content has a non-space character |
| ConnectionRequestModel.NewConnectionRequest | src/models/ConnectionRequest.js:5-36 | a new request is pending and unpaid, with no reason, a trimmed message, the given fee (default 20000), and is valid |
| ConversationModel.NewConversation | src/models/Conversation.js:4-28 | a new conversation is active, belongs to its request, and has the given participants, all joined at creation |
| MessageModel.NewMessage | src/controllers/chatController.js:91-97 | a new message belongs to its conversation and sender with the given content, and is unread |
| PaymentModel.NewPayment | src/services/paymentService.js:19-27 | a new payment is a pending bank payment, not yet paid, whose order code and provider data come from the link |
| PaymentModel.AppendKeepsOrderIdsUnique | src/models/Payment.js:35-38 | storing a payment whose order code is free keeps order codes unique |
| Store.Db.AddNotifications | src/services/notificationService.js:6-20 | inserting notifications with the next fresh ids appends them, advances the id counter past them, and keeps the invariant |
| Store.Db.AddLetter | src/controllers/letterController.js:10-16 | saving a new letter appends it and uses up its id |
| Store.Db.AddRequest | src/controllers/connectionController.js:80-87 | saving a new request appends it and uses up its id |
| Store.Db.AddConversation | src/controllers/connectionController.js:181-191 | saving the conversation of an accepted request that has none appends it and keeps one conversation per request |
| Store.Db.AddMessage | src/controllers/chatController.js:91-97 | saving a new message appends it and uses up its id |
| Store.Db.AddPayment | src/services/paymentService.js:19-29 | saving a payment under a free order code appends it and keeps order codes unique |
| Store.Db.SetRequest | src/controllers/connectionController.js:172-179 | saving a stored request replaces it at its place and keeps its id and parties |
| Store.Db.SetLetter | src/controllers/adminController.js:58-60 | saving a stored letter replaces it at its place and keeps its id |
| Store.Db.RemoveLetter | src/controllers/letterController.js:122-134 | deleting a letter removes exactly that position |
| Store.Db.SetUser | src/controllers/userController.js:40-55 | saving a stored user replaces it and keeps its id |
| Store.Db.SetNotifications | src/controllers/notificationController.js:72-102 | an in-place update replaces the notifications without changing any id |
| Store.Db.RemoveNotification | src/controllers/notificationController.js:114-121 | deleting a notification removes exactly that position |
| Store.Db.SetMessages | src/controllers/chatController.js:57-64 | an in-place update replaces the messages without changing any id |
| Store.Db.SetConversation | src/controllers/chatController.js:99-100 | saving a conversation replaces it and keeps its id and request |
| Store.Db.SetPayment | src/controllers/paymentController.js:86-95 | saving a payment replaces it and keeps its order code |
| Store.UserIndex | src/controllers/userController.js:6-28 | `findById` finds the user with that id, and finds none exactly when no user has it |
| Store.RequestIndex | src/controllers/paymentController.js:100-103 | `findById` finds the request with that id, and finds none exactly when no request has it |
| Store.PendingHasNoConversation | src/models/Conversation.js:4-9 | a pending request has no conversation yet |
| Store.LinkedAfterAppend | src/models/Conversation.js:4-9 | a new request keeps every conversation linked to its accepted request |
| NotificationService.Created | src/services/notificationService.js:4-25 | the admin target creates one unread copy per active administrator with consecutive ids; any other target creates one notification for the given user |
| NotificationService.FanOutReachesActiveAdmins | src/services/notificationService.js:6-15 | every active administrator gets a copy, and every copy carries the given data |
| NotificationService.FanOutSkipsOthers | src/services/notificationService.js:6-15 | no user other than an active administrator gets a copy |
| NotificationService.FanOutOncePerAdmin | src/services/notificationService.js:6-15 | no administrator gets two copies |
| NotificationService.CreateNotification | src/services/notificationService.js:4-25 | a valid call stores and returns exactly the created notifications; an invalid one returns the validation error and stores nothing |
| NotificationService.Notify | src/services/notificationService.js:16-20 | a single-user call with a valid title appends exactly one notification for that user |
| NotificationService.NotifyAdmins | src/services/notificationService.js:6-15 | an admin call with a valid title appends exactly the fan-out to the active administrators |
| PaymentService.CreatePaymentLink | src/services/paymentService.js:5-40 | with a checkout URL and a free order code, one pending payment is stored and the link to it returned; otherwise the error "Failed to create payment link" is returned and nothing is stored |
| PaymentService.LinkOrderCodeUnique | src/services/paymentService.js:19-29 | after a link is created exactly one payment carries its order code |
| AdminController.PendingLetters | src/controllers/adminController.js:7-34 | the page holds exactly the sent letters pending review at the queried positions, newest first: as many as fit past the skip, item `k` the `skip + k`-th newest; `total` counts all of them |
| AdminController.AllLetters | src/controllers/adminController.js:152-178 | the page holds exactly the letters matching the truthy `status` and `adminReviewStatus` filters at the queried positions, newest first, at most `limit` of them; `total` counts all matches |
| AdminController.AllLettersUnfiltered | src/controllers/adminController.js:154-158 | without filters `total` is the number of letters |
| AdminController.AllLettersUnknownStatus | src/controllers/adminController.js:154-158 | a status that is not an enum name matches no letter |
| AdminController.RevenueAppend | src/controllers/adminController.js:269-284 | a payment adds its amount to revenue exactly when it is completed |
| AdminController.RevenueWithoutCompleted | src/controllers/adminController.js:269-284 | with no completed payment the revenue is 0 |
| AdminController.RevenueNeedsCompleted | src/controllers/adminController.js:269-284 | a dashboard that counts no completed payment reports no revenue |
| AdminController.RevenueNonNegative | src/controllers/adminController.js:269-284 | revenue over non-negative amounts is non-negative |
| AdminController.Dashboard | src/controllers/adminController.js:247-290 | `totalUsers` counts the active users with role `user`; the letter and payment totals are the collection sizes; the pending, approved and rejected figures count the sent letters in each review state and add up to the sent letters; the completed and pending payment figures count those statuses; `totalRevenue` is the sum of the completed amounts, 0 without any |
| AdminController.ReviewsPartitionSent | src/controllers/adminController.js:259-266 | every sent letter is counted in exactly one of the three review figures |
| AdminController.NoticeTitlesValid | src/controllers/adminController.js:106-139 | the titles of the review notices pass the title validation |
| AdminController.NoticeTextsBare | src/controllers/adminController.js:106-139 | the constant notice texts are stored unchanged by `trim` |
| AdminController.LetterIndex | src/controllers/adminController.js:47-50 | `findById` finds the letter with that id, and finds none exactly when no letter has it |
| AdminController.EligibleReceiversExactly | src/controllers/adminController.js:64-98 | the receivers are drawn from exactly the eligible users: active, role `user`, not the sender, and either VIP or basic with no letter approved to them today |
| AdminController.CollectEligible | src/controllers/adminController.js:77-98 | the loop keeps, in order, exactly the candidates with capacity |
| AdminController.ReviewLetter | src/controllers/adminController.js:36-150 | a status other than approved or rejected is 400; an unknown letter is 404; a letter already reviewed is 400; otherwise the letter is saved as reviewed and its notices are stored. Every failure leaves the store as it was |
| AdminController.Review | src/controllers/adminController.js:58-139 | the review of a pending letter stores the reviewed letter and exactly the review notices |
| AdminController.Route | src/controllers/adminController.js:62-118 | an approval with eligible users sends the letter to the drawn user, with a send time, and notifies that user; with none the letter stays unrouted and nothing is stored |
| AdminController.ChooseReceiver | src/controllers/adminController.js:100-101 | the draw returns the eligible user at the drawn index, or none when no user is eligible |
| AdminController.ReviewRecordsDecision | src/controllers/adminController.js:58-60 | a review records the decision, its time and the trimmed note, and keeps the sender and content |
| AdminController.ReviewRoutes | src/controllers/adminController.js:100-118 | an approval with eligible users delivers to one of them, never the sender; otherwise the letter has no receiver |
| AdminController.ReviewNotifiesSenderOnce | src/controllers/adminController.js:120-139 | the sender gets exactly one notice, of kind approved or rejected as decided |
| AdminController.ReviewNotifiesReceiverOnce | src/controllers/adminController.js:106-113 | a chosen receiver gets exactly one `new_letter` notice; without one, only the sender is notified |
| AdminController.PickedReceiverEligible | src/controllers/adminController.js:77-101 | the drawn receiver is an active user other than the sender, VIP or with capacity today |
| AdminController.EveryEligibleCanBePicked | src/controllers/adminController.js:100-101 | every eligible user is drawn by some random value |
| AdminController.BasicOncePerDay | src/controllers/adminController.js:82-96 | a basic user with a letter approved to them today is not eligible again that day |
| LetterController.SubmittedTitleValid | src/controllers/letterController.js:18-28 | the title of the new-letter notice passes validation |
| LetterController.CreateLetter | src/controllers/letterController.js:6-37 | an accepted letter is stored and returned with 201, and one notice per active administrator is stored; a letter that fails validation is a 500 and stores nothing |
| LetterController.SaveLetter | src/controllers/letterController.js:16-29 | the letter is appended to the letters and one submission notice per active administrator to the notifications, with the ids that follow the letter's |
| LetterController.CreatedLetterShape | src/controllers/letterController.js:10-16 | the stored letter is valid, from the caller, with no receiver, trimmed content, pending review, and the requested status or `draft` |
| LetterController.SubmissionReachesAdmins | src/controllers/letterController.js:18-28 | each active administrator gets exactly one notice about the letter, and no one else does |
| LetterController.SubmissionNoticesAboutLetter | src/controllers/letterController.js:18-28 | every notice of the batch is a `new_letter` notice whose related id is the letter |
| LetterController.MyLetters | src/controllers/letterController.js:39-63 | the page holds exactly the caller's own letters of the truthy status at the queried positions, newest first; `total` counts all of them |
| LetterController.MyLettersCountsAllOwn | src/controllers/letterController.js:42-44 | without a status or a limit every letter of the caller is listed, drafts included |
| LetterController.ReceivedLetters | src/controllers/letterController.js:65-94 | the page is the queried slice of the approved, sent letters delivered to the caller, sorted by delivery time, latest first; `total` counts all of them |
| LetterController.PageOfSorted | src/controllers/letterController.js:76-80 | a page of a list sorted newest first is itself sorted |
| LetterController.Archive | src/controllers/letterController.js:100-112 | archiving succeeds exactly when the caller is sender or receiver of the letter; that letter becomes `archived` and the length is kept |
| LetterController.ArchiveLetter | src/controllers/letterController.js:96-116 | 404 and no change when the caller has no such letter; otherwise the letters become the archived ones |
| LetterController.ArchiveTouchesOnlyThatLetter | src/controllers/letterController.js:100-112 | only the letter with that id changes, and only in its status |
| LetterController.ArchiveIdempotent | src/controllers/letterController.js:100-112 | archiving twice is archiving once |
| LetterController.ArchivedLeavesInbox | src/controllers/letterController.js:69-75 | an archived letter no longer appears among any reader's received letters |
| LetterController.DeleteDraft | src/controllers/letterController.js:122-134 | deletion succeeds exactly when the caller has a draft with that id; exactly one letter is removed |
| LetterController.DeleteDraftLetter | src/controllers/letterController.js:118-138 | 404 and no change unless the caller has that draft; otherwise the letter is removed |
| LetterController.DeleteDraftRemovesOnlyIt | src/controllers/letterController.js:122-134 | afterwards no letter has that id, and every other letter is kept |
| LetterController.OnlyDraftsDeleted | src/controllers/letterController.js:122-126 | a letter that is not a draft is never deleted |
| ConnectionController.Users | src/controllers/connectionController.js:7-40 | the page holds exactly the active users with role `user` other than the caller, narrowed by a truthy search, at the queried positions, newest first |
| ConnectionController.SearchNarrows | src/controllers/connectionController.js:10-21 | a search never adds users |
| ConnectionController.MyConnectionRequestsAsWritten | src/controllers/connectionController.js:106-135 | as written: 500 exactly for a negative skip; otherwise the page holds exactly the requests the `type` filter matches at the queried positions, newest first, and `total` counts them |
| ConnectionController.AsWrittenListsStrangersRequests | src/controllers/connectionController.js:108-115 | with `type=all`, a request between two other users is counted and returned as the page's only item |
| ConnectionController.MyConnectionRequests | src/controllers/connectionController.js:106-135 | corrected listing: the page holds exactly the caller's sent requests, or received ones for `type=received`, at the queried positions, newest first; never another user's |
| ConnectionController.CorrectedAgreesOnKnownTypes | src/controllers/connectionController.js:108-115 | for `sent`, `received` and no type the corrected listing equals the one written |
| ConnectionController.CreateConnectionRequest | src/controllers/connectionController.js:42-104 | self is 400; an unavailable receiver is 404; an existing pending or accepted request from the caller is 400 with the matching text; otherwise the pending request is stored, and then either its fee payment and 201 with the link, or a 500 that keeps the request |
| ConnectionController.Refusal | src/controllers/connectionController.js:46-78 | the guards refuse exactly the inadmissible requests, and every refusal is an error reply |
| ConnectionController.Submit | src/controllers/connectionController.js:80-103 | the request is stored; a created link adds the fee payment, paid by the sender, and gives 201 with the link; a failed link is a 500 that leaves the payments unchanged |
| ConnectionController.ReverseDirectionNotChecked | src/controllers/connectionController.js:57-78 | a request in the opposite direction never blocks a new one |
| ConnectionController.AnswerTitlesValid | src/controllers/connectionController.js:193-211 | the answer notice titles pass validation |
| ConnectionController.ChatboxNameOverflows | src/controllers/connectionController.js:189 | two 50-character user names give a 118-character chat box name, over the schema's 100, so the conversation fails validation |
| ConnectionController.FittedChatboxName | src/models/Conversation.js:14-17 | corrected name: at most 100 characters, a prefix of the written name, and equal to it whenever that fits |
| ConnectionController.RespondToConnectionRequest | src/controllers/connectionController.js:138-221 | bad status or missing reason is 400; no pending paid request of the caller is 404; an invalid answer is 500; an acceptance stores the accepted request and, when its conversation passes validation, the conversation and one notice to the sender with 200, otherwise a 500 that keeps the accepted request and stores nothing else; a rejection stores the request with the trimmed reason and one notice; every other failure changes nothing |
| ConnectionController.Accept | src/controllers/connectionController.js:172-200 | the accepted request is saved in every case; the conversation and the acceptance notice are stored exactly when the conversation, named as written, passes validation |
| ConnectionController.OpenConversation | src/controllers/connectionController.js:181-191 | for a conversation that passed validation: the accepted request replaces the pending one and exactly that conversation, named as written after the two parties, is appended |
| ConnectionController.Refuse | src/controllers/connectionController.js:172-211 | a rejection saves the rejected request and stores the rejection notice |
| ConnectionController.SecondAnswerFails | src/controllers/connectionController.js:159-170 | an answered request is no longer answerable |
| ConnectionController.StrandedAcceptance | src/controllers/connectionController.js:179-191 | an acceptance whose conversation fails validation leaves the request accepted, with no conversation, and no later answer reaches it |
| ConnectionController.OneConversationPerAcceptance | src/controllers/connectionController.js:181-191 | after an acceptance exactly one conversation belongs to the request |
| ConnectionController.OpenedConversationShape | src/controllers/connectionController.js:181-191 | the conversation belongs to the request, is active, has exactly the sender and receiver as participants, and passes validation exactly when the written name fits 100 characters |
| ConnectionController.FittedConversationValid | src/models/Conversation.js:14-17 | corrected conversation: it always passes validation, and equals the written one whenever that passes |
| PaymentController.PaymentStatus | src/controllers/paymentController.js:6-23 | 404 exactly when the caller has no payment for the request; otherwise one of the caller's payments for it |
| PaymentController.MyPayments | src/controllers/paymentController.js:164-188 | the page holds exactly the caller's payments of the truthy status at the queried positions, newest first |
| PaymentController.MyPaymentsExcludeOthers | src/controllers/paymentController.js:166-169 | another user's payment is never listed |
| PaymentController.PaidTitleValid | src/controllers/paymentController.js:111-120 | the paid-request notice title passes validation |
| PaymentController.EveryWebhookSettles | src/controllers/paymentController.js:86-146 | every webhook for a known payment meets the paid guard or the cancel guard |
| PaymentController.Outcome | src/controllers/paymentController.js:86-146 | a webhook completes the payment exactly when the paid guard holds, fails it otherwise, and never leaves it pending |
| PaymentController.SettledShape | src/controllers/paymentController.js:86-146 | the settled payment has the outcome status, and its time and payload when paid; it keeps its identity, owner, amount and order code |
| PaymentController.PaymentByOrder | src/controllers/paymentController.js:72-81 | the lookup finds a payment with the order code, and none exactly when the code is not taken |
| PaymentController.HandleWebhook | src/controllers/paymentController.js:25-162 | always 200; a body without data or order code is an error reply, and an unknown order changes nothing; otherwise the payment is settled, and a paid one marks its request paid and notifies that request's receiver once |
| PaymentController.MarkRequestPaid | src/controllers/paymentController.js:100-134 | a linked request is marked paid and its receiver gets one notice; without one nothing changes |
| ChatController.LastMessageIndex | src/controllers/chatController.js:17-19 | the last message found belongs to the conversation, and no later message does; none exactly when it has no message |
| ChatController.OpenSorted | src/controllers/chatController.js:7-13 | the caller's active conversations, all of them, sorted by `updatedAt` newest first |
| ChatController.Views | src/controllers/chatController.js:15-26 | each listed conversation is paired with its own last message |
| ChatController.MyConversations | src/controllers/chatController.js:5-33 | one entry per active conversation of the caller, each with that conversation's last message |
| ChatController.MyConversationsAreOpen | src/controllers/chatController.js:7-10 | only stored, active conversations that the caller takes part in are listed |
| ChatController.MyConversationsComplete | src/controllers/chatController.js:7-10 | every active conversation of the caller is listed |
| ChatController.MyConversationsNewestFirst | src/controllers/chatController.js:13 | the list is ordered by `updatedAt`, newest first |
| ChatController.LastMessageIsNewest | src/controllers/chatController.js:17-19 | the last message is the conversation's most recently stored one |
| ChatController.SentMessageIsLast | src/controllers/chatController.js:91-100 | a message just sent becomes its conversation's last message |
| ChatController.MarkReadFor | src/controllers/chatController.js:57-64 | the conversation's unread messages from others become read; all other messages are kept |
| ChatController.MarkReadEffect | src/controllers/chatController.js:57-64 | afterwards no message from another participant in that conversation is unread |
| ChatController.MarkReadIdempotent | src/controllers/chatController.js:57-64 | marking read twice is marking once |
| ChatController.MarkReadKeepsRead | src/controllers/chatController.js:57-64 | a message that is already read is left exactly as it was |
| ChatController.GetConversationMessages | src/controllers/chatController.js:34-75 | 404 if the caller is not in the conversation; a page error is 500 and changes nothing; otherwise the page oldest first, and the conversation's messages from others marked read |
| ChatController.OldestFirstPage | src/controllers/chatController.js:52-55 | when item `j` of a page is the `skip + j`-th newest match, item `k` of the reversed page is the `skip + |page| - 1 - k`-th newest, so the page is shown oldest first |
| ChatController.MessagesPageInConversation | src/controllers/chatController.js:52-55 | every message on the page belongs to the conversation |
| ChatController.MarkMessagesAsRead | src/controllers/chatController.js:132-158 | 404 if the caller is not in the conversation; otherwise the marking above |
| ChatController.NewMessageTitleValid | src/controllers/chatController.js:102-116 | the new-message title passes validation |
| ChatController.MessageNotices | src/controllers/chatController.js:102-116 | one notice per other participant, in order, numbered consecutively |
| ChatController.MessageNoticesGoToOthers | src/controllers/chatController.js:102-116 | each notice goes to a participant other than the sender, as an unread new-message notice about the conversation with the next id in turn |
| ChatController.MessageNoticesReachOthers | src/controllers/chatController.js:102-116 | every participant other than the sender gets a notice |
| ChatController.MessageNoticesOncePerOther | src/controllers/chatController.js:102-116 | with distinct participants, each other participant gets exactly one notice |
| ChatController.SendMessage | src/controllers/chatController.js:76-131 | 404 unless the caller is in an active conversation with that id; otherwise the message is stored, the conversation's `updatedAt` is advanced, the others are notified, and the reply is 201 |
| ChatController.Deliver | src/controllers/chatController.js:91-116 | stores the message, updates the conversation and stores the message notices |
| ChatController.SaveMessage | src/controllers/chatController.js:91-101 | the new message gets the next id and is appended, and only the found conversation changes, its `updatedAt` becoming `now` |
| ChatController.NotifyOthers | src/controllers/chatController.js:102-116 | the loop stores exactly the notices for the other participants |
| NotificationController.Attached | src/controllers/notificationController.js:24-55 | a connection-request notification is paired with its stored request when one exists; others have none |
| NotificationController.Views | src/controllers/notificationController.js:24-55 | each listed notification is paired with what it is attached to |
| NotificationController.MyNotifications | src/controllers/notificationController.js:3-66 | the page holds exactly the caller's notifications matching `isRead` at the queried positions, newest first, each with its attachment; the unread count is over all of the caller's notifications |
| NotificationController.UnreadCountIgnoresQuery | src/controllers/notificationController.js:18-21 | the unread count does not depend on the filter or the page |
| NotificationController.IsReadParameter | src/controllers/notificationController.js:5-10 | `isRead=true` shows read notifications, any other value unread ones, and no value shows all |
| NotificationController.ReadOne | src/controllers/notificationController.js:72-83 | succeeds exactly when the caller owns a notification with that id; that one becomes read |
| NotificationController.ReadOneTouchesOnlyIt | src/controllers/notificationController.js:72-83 | only that notification changes, and only its read flag |
| NotificationController.MarkNotificationAsRead | src/controllers/notificationController.js:68-92 | 404 and no change unless the caller owns it; otherwise it is marked read |
| NotificationController.ReadOneIdempotent | src/controllers/notificationController.js:72-83 | marking twice is marking once |
| NotificationController.ReadAll | src/controllers/notificationController.js:96-102 | all of the caller's notifications become read, and no one else's change |
| NotificationController.ReadAllEffect | src/controllers/notificationController.js:96-102 | the caller's notifications are read and others' are kept |
| NotificationController.ReadAllIdempotent | src/controllers/notificationController.js:96-102 | marking all twice is marking all once |
| NotificationController.ReadAllClearsUnread | src/controllers/notificationController.js:18-21 | afterwards the caller's unread count is 0 |
| NotificationController.MarkAllNotificationsAsRead | src/controllers/notificationController.js:94-108 | the store's notifications become the marked-all ones |
| NotificationController.DeleteOne | src/controllers/notificationController.js:114-121 | succeeds exactly when the caller owns a notification with that id; exactly one is removed |
| NotificationController.DeleteOneRemovesOnlyIt | src/controllers/notificationController.js:114-121 | the result is the notifications without that id |
| NotificationController.DeleteNotification | src/controllers/notificationController.js:110-131 | 404 and no change unless the caller owns it; otherwise it is removed |
| UserController.UserProfile | src/controllers/userController.js:6-28 | 404 exactly when the caller is not stored; otherwise the caller's profile |
| UserController.MembershipStatus | src/controllers/userController.js:108-123 | 404 exactly when the caller is not stored; otherwise the caller's membership |
| UserController.UpdatedProfile | src/controllers/userController.js:30-73 | 404 if the caller is not stored; 400 exactly when the new username belongs to another user; otherwise the given fields are replaced and the rest kept |
| UserController.UpdateKeepsUsernamesUnique | src/controllers/userController.js:40-49 | an accepted update keeps usernames unique |
| UserController.UpdateUserProfile | src/controllers/userController.js:30-73 | the users become the updated ones on success and are unchanged on failure |
| UserController.UpgradeToVip | src/controllers/userController.js:75-106 | a missing caller is 404; a VIP is 400; a failed link is 500; otherwise one pending payment of 60000 is stored and the offer returned. Failures store nothing |
| UserController.PaymentHistoryAsWritten | src/controllers/userController.js:125-151 | as written: the page holds exactly the payments the written filter matches at the queried positions, newest first; `total` counts them |
| UserController.PaymentHistoryAsWrittenMisses | src/controllers/userController.js:129-140 | the written filter lists no VIP payment under non-strict queries, and lists a connection fee under strict ones |
| UserController.PaymentHistory | src/controllers/userController.js:125-151 | corrected history: the page holds exactly the caller's VIP payments at the queried positions, newest first; `total` counts all of them |
| UserController.UpgradeShowsInHistory | src/controllers/userController.js:90-95 | the payment an upgrade stores adds one entry to the corrected history, and a connection fee of the caller adds none |

## Left out

- HTTP routing, the JWT middleware, and the request validators (their length and format
  bounds) are not modelled. The handlers receive the signed-in user and the body fields as
  parameters.
- The payment provider's SDK is not modelled. The checkout URL it returns, or its failure
  (`None`), and the order code (`Date.now()` in the service) are parameters.
- The webhook's signature check (`verifyPayOSWebhook`) is disabled in the handler, so it is
  not modelled. Neither is `getPaymentInfo`, which no handler calls.
- Socket notifications (`io.emit`, `sendRealTimeNotification`) are not modelled: they send
  data and store nothing.
- The clock and the random draw are parameters (`now`, `pick`). Days are counted from the
  clock without a time zone.
- The username search in `getUsers` is a regular expression. It is modelled as the predicate
  parameter `matches`.
- Mongoose's `populate` and field projections are not modelled. Listings return whole
  records, and attachments are resolved by id.
- The `createdAt` and `updatedAt` timestamps are not modelled. "Newest first" is reverse
  insertion order.
- Concurrency between requests is not modelled: each handler runs on its own.
- Users are never deleted or registered here, because the user-management handlers are not
  part of this model. The User and Message schemas are not part of this model either, so
  their records hold only the fields the handlers use.
- The exact texts of database and validation errors are not modelled. Each is a constant
  with the leading part of the message.
- Pagination parameters that are negative or not numeric are not modelled. `page` and
  `limit` are integers, and a limit of 0 means no limit.
- The adminController handlers `getPayments` and `getAllUsers` are not part of this model.
- UserController.PaymentHistoryAsWritten: the query on `description` depends on the
  database's strict-query setting, which is a parameter (`strictQuery`) rather than a fixed
  value.
- NotificationService.Notify: the stored content is the trimmed text the caller passes,
  rather than the schema trimming it.
- CreateNotification: stores `content` as given, where the Notification schema trims it; every
  caller in this model passes text that is already trimmed (as for Notify).
- NotifyAdmins: stores the fan-out's `content` as given, where the Notification schema trims it;
  the one caller passes text that is already trimmed (as for Notify).

## Findings

| source | as written | input that shows it | evidently intended | confidence | as-written member | corrected member |
|---|---|---|---|---|---|---|
| src/controllers/connectionController.js:189 | the chat box name is `Chat between <sender> and <receiver>`, with no length cap | two usernames of 50 characters give a 118-character name, over the schema's 100-character maximum, so the conversation fails validation after the request was saved as accepted: the answer is a 500 and the pair is left without a chat | the name fits the 100 characters the schema allows | not executed | ConnectionController.ChatboxNameOverflows | ConnectionController.FittedChatboxName |
| src/controllers/connectionController.js:108-115 | a `type` other than `sent` or `received` leaves the query without a user condition | `type=all` from a caller who is party to no request lists a request between two other users | a user sees only requests they sent or received | not executed | ConnectionController.AsWrittenListsStrangersRequests | ConnectionController.MyConnectionRequests |
| src/controllers/userController.js:129-140 | the history filters payments on `description`, a field the Payment schema does not have | without strict queries a VIP payment is never listed; with them, every payment of the caller is listed, connection fees included | the caller's VIP payments | not executed | UserController.PaymentHistoryAsWrittenMisses | UserController.PaymentHistory |
