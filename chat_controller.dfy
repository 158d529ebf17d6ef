/** The chat handlers: the caller's open conversations with their latest message, a page of a
    conversation's messages (which also marks the other side's messages read), sending a
    message, and marking a conversation read. Messages are kept in the order they were sent. */
module ChatController {
  import opened Common
  import opened Seqs
  import opened Text
  import opened Paging
  import opened UserModel
  import opened ConversationModel
  import opened MessageModel
  import opened NotificationModel
  import opened Store
  import opened NotificationService

  const ConversationNotFound: string := "Conversation not found"

  // ---------------------------------------------------------------------------------------
  // The caller's conversations

  /** `{ 'participants.userId': caller, isActive: true }`. */
  function OpenFor(caller: Id): Conversation -> bool {
    (c: Conversation) => c.isActive && c.HasParticipant(caller)
  }

  function UpdatedAtKey(c: Conversation): int {
    c.updatedAt
  }

  /** The position of the conversation's latest message: none of the later messages belongs
      to it. */
  function LastMessageIndex(messages: seq<Message>, conversationId: Id): (r: Option<nat>)
    ensures r.Some? ==> r.value < |messages| && messages[r.value].conversationId == conversationId
    ensures r.Some? ==> forall j | r.value < j < |messages| :: messages[j].conversationId != conversationId
    ensures r.None? <==> forall j | 0 <= j < |messages| :: messages[j].conversationId != conversationId
  {
    if messages == [] then None
    else if messages[|messages| - 1].conversationId == conversationId then Some(|messages| - 1)
    else LastMessageIndex(messages[..|messages| - 1], conversationId)
  }

  /** `Message.findOne({ conversationId }).sort({ createdAt: -1 })`. */
  function LastMessage(messages: seq<Message>, conversationId: Id): Option<Message> {
    match LastMessageIndex(messages, conversationId)
    case None => None
    case Some(i) => Some(messages[i])
  }

  /** A conversation as listed, with its latest message (`{ ...conv, lastMessage }`). */
  datatype ConversationView = ConversationView(conversation: Conversation, lastMessage: Option<Message>)

  /** The caller's active conversations, most recently updated first
      (`find(...).sort({ updatedAt: -1 })`). */
  function OpenSorted(conversations: seq<Conversation>, caller: Id): (s: seq<Conversation>)
    ensures |s| == Count(conversations, OpenFor(caller))
    ensures forall x | x in s :: x in conversations && OpenFor(caller)(x)
    ensures forall c | c in conversations && OpenFor(caller)(c) :: c in s
    ensures SortedDesc(s, UpdatedAtKey)
  {
    var matching := Filter(conversations, OpenFor(caller));
    var sorted := SortDesc(matching, UpdatedAtKey);
    assert |sorted| == |multiset(sorted)| == |multiset(matching)| == |matching|;
    forall x | x in sorted ensures x in matching {
      assert x in multiset(sorted);
    }
    forall c | c in conversations && OpenFor(caller)(c) ensures c in sorted {
      assert c in multiset(matching);
    }
    sorted
  }

  /** Each conversation paired with its latest message. */
  function Views(s: seq<Conversation>, messages: seq<Message>): (r: seq<ConversationView>)
    ensures |r| == |s|
    ensures forall k | 0 <= k < |s| :: r[k].conversation == s[k] && r[k].lastMessage == LastMessage(messages, s[k].id)
  {
    seq(|s|, k requires 0 <= k < |s| => ConversationView(s[k], LastMessage(messages, s[k].id)))
  }

  /** `getMyConversations`: the caller's active conversations, most recently updated first,
      each with its latest message. */
  function MyConversations(conversations: seq<Conversation>, messages: seq<Message>, caller: Id): (r: seq<ConversationView>)
    ensures |r| == Count(conversations, OpenFor(caller))
    ensures forall k | 0 <= k < |r| :: r[k].lastMessage == LastMessage(messages, r[k].conversation.id)
  {
    Views(OpenSorted(conversations, caller), messages)
  }

  /** Only the caller's active conversations are listed. */
  lemma MyConversationsAreOpen(conversations: seq<Conversation>, messages: seq<Message>, caller: Id)
    ensures var r := MyConversations(conversations, messages, caller);
      forall k | 0 <= k < |r| ::
        r[k].conversation in conversations && r[k].conversation.isActive && r[k].conversation.HasParticipant(caller)
  {
    var s := OpenSorted(conversations, caller);
    var r := Views(s, messages);
    forall k | 0 <= k < |r|
      ensures r[k].conversation in conversations && r[k].conversation.isActive && r[k].conversation.HasParticipant(caller)
    {
      assert r[k].conversation == s[k] && s[k] in s;
    }
  }

  /** Every active conversation of the caller is listed. */
  lemma MyConversationsComplete(conversations: seq<Conversation>, messages: seq<Message>, caller: Id, c: Conversation)
    requires c in conversations && c.isActive && c.HasParticipant(caller)
    ensures var r := MyConversations(conversations, messages, caller);
      exists k | 0 <= k < |r| :: r[k].conversation == c
  {
    var s := OpenSorted(conversations, caller);
    var r := Views(s, messages);
    assert r == MyConversations(conversations, messages, caller);
    assert OpenFor(caller)(c);
    assert c in s;
    var k :| 0 <= k < |s| && s[k] == c;
    assert r[k].conversation == c;
  }

  /** The most recently updated conversation comes first. */
  lemma MyConversationsNewestFirst(conversations: seq<Conversation>, messages: seq<Message>, caller: Id)
    ensures var r := MyConversations(conversations, messages, caller);
      forall k | 0 < k < |r| :: r[k - 1].conversation.updatedAt >= r[k].conversation.updatedAt
  {
    var s := OpenSorted(conversations, caller);
    var r := Views(s, messages);
    forall k | 0 < k < |r| ensures r[k - 1].conversation.updatedAt >= r[k].conversation.updatedAt {
      assert r[k - 1].conversation == s[k - 1] && r[k].conversation == s[k];
      assert UpdatedAtKey(s[k - 1]) >= UpdatedAtKey(s[k]);
    }
  }

  /** The latest message shown with a conversation is that conversation's newest message. */
  lemma LastMessageIsNewest(messages: seq<Message>, conversationId: Id)
    ensures LastMessage(messages, conversationId).Some? <==> exists j | 0 <= j < |messages| :: messages[j].conversationId == conversationId
    ensures LastMessage(messages, conversationId).Some? ==>
      exists j | 0 <= j < |messages| ::
        && messages[j] == LastMessage(messages, conversationId).value
        && messages[j].conversationId == conversationId
        && forall j' | j < j' < |messages| :: messages[j'].conversationId != conversationId
  {
    var r := LastMessageIndex(messages, conversationId);
    if r.Some? {
      assert messages[r.value] == LastMessage(messages, conversationId).value;
    }
  }

  /** A message just sent is the one shown with its conversation. */
  lemma SentMessageIsLast(messages: seq<Message>, m: Message)
    ensures LastMessage(messages + [m], m.conversationId) == Some(m)
  {
  }

  // ---------------------------------------------------------------------------------------
  // Reading a conversation

  /** `{ _id: conversationId, 'participants.userId': caller }`: the activity flag is not part
      of this filter. */
  function ParticipantIn(conversationId: Id, caller: Id): Conversation -> bool {
    (c: Conversation) => c.id == conversationId && c.HasParticipant(caller)
  }

  /** `{ conversationId }`. */
  function InConversation(conversationId: Id): Message -> bool {
    (m: Message) => m.conversationId == conversationId
  }

  /** Whether `updateMany({ conversationId, senderId: { $ne: caller }, isRead: false })`
      touches the message. */
  predicate Unread(m: Message, conversationId: Id, caller: Id) {
    m.conversationId == conversationId && m.senderId != caller && !m.isRead
  }

  /** The messages after that `updateMany(..., { isRead: true })`. */
  function MarkReadFor(messages: seq<Message>, conversationId: Id, caller: Id): (r: seq<Message>)
    ensures |r| == |messages|
  {
    seq(|messages|, k requires 0 <= k < |messages| =>
      if Unread(messages[k], conversationId, caller) then messages[k].(isRead := true) else messages[k])
  }

  /** Marking reads every message the other participants sent in the conversation, and
      changes no other message and nothing but the read flag. */
  lemma MarkReadEffect(messages: seq<Message>, conversationId: Id, caller: Id)
    ensures var r := MarkReadFor(messages, conversationId, caller);
      forall k | 0 <= k < |messages| ::
        && r[k].id == messages[k].id && r[k].conversationId == messages[k].conversationId
        && r[k].senderId == messages[k].senderId && r[k].content == messages[k].content
        && (messages[k].conversationId == conversationId && messages[k].senderId != caller ==> r[k].isRead)
        && (messages[k].conversationId != conversationId || messages[k].senderId == caller ==> r[k] == messages[k])
  {
  }

  /** Marking twice is marking once. */
  lemma MarkReadIdempotent(messages: seq<Message>, conversationId: Id, caller: Id)
    ensures var once := MarkReadFor(messages, conversationId, caller);
      MarkReadFor(once, conversationId, caller) == once
  {
  }

  /** A read message stays read: marking never clears the flag. */
  lemma MarkReadKeepsRead(messages: seq<Message>, conversationId: Id, caller: Id, k: nat)
    requires k < |messages| && messages[k].isRead
    ensures MarkReadFor(messages, conversationId, caller)[k] == messages[k]
  {
  }

  /** `getConversationMessages`: a page of the conversation's messages for one of its
      participants (active or not), newest first by position but returned oldest first, with
      the other participants' messages then marked read. The page holds the messages as
      they were read, before the marking. */
  method GetConversationMessages(db: Db, caller: Id, conversationId: Id, q: PageQuery) returns (r: Reply<Listing<Message>>)
    requires db.Valid()
    modifies db`messages
    ensures db.Valid()
    ensures FindFirst(db.conversations, ParticipantIn(conversationId, caller)).None? ==>
      r == Fail(404, ConversationNotFound) && db.messages == old(db.messages)
    ensures FindFirst(db.conversations, ParticipantIn(conversationId, caller)).Some? ==>
      var page := NewestFirst(Filter(old(db.messages), InConversation(conversationId)), q, 50);
      && (page.Fail? ==> r == page && db.messages == old(db.messages))
      && (page.Ok? ==>
            && r == Ok(200, page.body.(items := Reverse(page.body.items)))
            && db.messages == MarkReadFor(old(db.messages), conversationId, caller))
  {
    var found := FindFirst(db.conversations, ParticipantIn(conversationId, caller));
    if found.None? {
      return Fail(404, ConversationNotFound);
    }
    var page := NewestFirst(Filter(db.messages, InConversation(conversationId)), q, 50);
    if page.Fail? {
      return page;
    }
    db.SetMessages(MarkReadFor(db.messages, conversationId, caller));
    r := Ok(200, page.body.(items := Reverse(page.body.items)));
  }

  /** A newest-first page turned around (`messages.reverse()`): when item `j` of the page is
      the `skip + j`-th newest match, item `k` shown is the `skip + |page| - 1 - k`-th newest,
      so the matches are shown oldest first. */
  lemma OldestFirstPage<T>(items: seq<T>, matching: seq<T>, skip: int, k: nat)
    requires forall j | 0 <= j < |items| :: 0 <= skip + j < |matching| && items[j] == matching[|matching| - 1 - (skip + j)]
    requires k < |items|
    ensures 0 <= skip + |items| - 1 - k < |matching|
    ensures Reverse(items)[k] == matching[|matching| - 1 - (skip + |items| - 1 - k)]
  {
    var j := |items| - 1 - k;
    assert Reverse(items)[k] == items[j];
    assert 0 <= skip + j < |matching| && items[j] == matching[|matching| - 1 - (skip + j)];
  }

  /** The messages shown all belong to the conversation. */
  lemma MessagesPageInConversation(messages: seq<Message>, conversationId: Id, q: PageQuery)
    requires NewestFirst(Filter(messages, InConversation(conversationId)), q, 50).Ok?
    ensures var items := NewestFirst(Filter(messages, InConversation(conversationId)), q, 50).body.items;
      forall m | m in Reverse(items) :: m in messages && m.conversationId == conversationId
  {
    var items := NewestFirst(Filter(messages, InConversation(conversationId)), q, 50).body.items;
    ReverseSameElements(items);
  }

  /** `markMessagesAsRead`: for a participant of the conversation (active or not), the other
      participants' messages in it become read; otherwise 404 and nothing changes. */
  method MarkMessagesAsRead(db: Db, caller: Id, conversationId: Id) returns (r: Reply<string>)
    requires db.Valid()
    modifies db`messages
    ensures db.Valid()
    ensures FindFirst(db.conversations, ParticipantIn(conversationId, caller)).None? ==>
      r == Fail(404, ConversationNotFound) && db.messages == old(db.messages)
    ensures FindFirst(db.conversations, ParticipantIn(conversationId, caller)).Some? ==>
      r == Ok(200, "Messages marked as read") && db.messages == MarkReadFor(old(db.messages), conversationId, caller)
  {
    var found := FindFirst(db.conversations, ParticipantIn(conversationId, caller));
    if found.None? {
      return Fail(404, ConversationNotFound);
    }
    db.SetMessages(MarkReadFor(db.messages, conversationId, caller));
    r := Ok(200, "Messages marked as read");
  }

  // ---------------------------------------------------------------------------------------
  // Sending

  const NewMessageTitle: string := "New Message"
  const SentYouText: string := " sent you a message"

  /** The title passes the title validation. */
  lemma NewMessageTitleValid()
    ensures TitleValid(NewMessageTitle)
  {
  }

  /** `{ _id: conversationId, 'participants.userId': caller, isActive: true }`. */
  function OpenWith(conversationId: Id, caller: Id): Conversation -> bool {
    (c: Conversation) => c.id == conversationId && c.isActive && c.HasParticipant(caller)
  }

  /** `participants.filter(p => p.userId !== caller)`. */
  function Others(c: Conversation, caller: Id): seq<Participant> {
    Filter(c.participants, (p: Participant) => p.userId != caller)
  }

  /** The notice one other participant gets. */
  function MessageNotice(userId: Id, senderName: string, conversationId: Id): NotificationData {
    NotificationData(Some(userId), NewMessageType, NewMessageTitle, Some(Trim(senderName + SentYouText)),
                     Some(conversationId), Some(RelatedConversation))
  }

  /** The notifications the loop over the other participants stores, numbered from `firstId`. */
  function MessageNotices(others: seq<Participant>, senderName: string, conversationId: Id, firstId: Id): (r: seq<Notification>)
    ensures |r| == |others|
  {
    seq(|others|, k requires 0 <= k < |others| =>
      Materialize(MessageNotice(others[k].userId, senderName, conversationId), others[k].userId, firstId + k))
  }

    /** Each message notice goes to a participant other than the sender, is a new-message
      notice about the conversation, is unread, and has the next id in turn. */
  lemma MessageNoticesGoToOthers(c: Conversation, caller: User, firstId: Id, k: nat)
    requires k < |Others(c, caller.id)|
    ensures var ns := MessageNotices(Others(c, caller.id), caller.username, c.id, firstId);
      && ns[k].userId != caller.id && c.HasParticipant(ns[k].userId)
      && ns[k].kind == NewMessageType && ns[k].relatedId == Some(c.id) && !ns[k].isRead
      && ns[k].id == firstId + k
  {
    var others := Others(c, caller.id);
    var ns := MessageNotices(others, caller.username, c.id, firstId);
    var p := others[k];
    assert p in others;
    assert p in c.participants && p.userId != caller.id;
    var j :| 0 <= j < |c.participants| && c.participants[j] == p;
    assert ns[k].userId == p.userId;
  }

  /** Every participant other than the sender gets a message notice. */
  lemma MessageNoticesReachOthers(c: Conversation, caller: User, firstId: Id, p: Participant)
    requires p in c.participants && p.userId != caller.id
    ensures var ns := MessageNotices(Others(c, caller.id), caller.username, c.id, firstId);
      exists k | 0 <= k < |ns| :: ns[k].userId == p.userId
  {
    var others := Others(c, caller.id);
    var ns := MessageNotices(others, caller.username, c.id, firstId);
    assert p in others;
    var k :| 0 <= k < |others| && others[k] == p;
    assert ns[k].userId == p.userId;
  }


  /** `userId: u`, on notifications and on participants. */
  function NoticeFor(u: Id): Notification -> bool {
    (n: Notification) => n.userId == u
  }

  function EntryOf(u: Id): Participant -> bool {
    (p: Participant) => p.userId == u
  }

  /** With every user listed once among the participants, each other participant gets
      exactly one notice and the sender none. */
  lemma MessageNoticesOncePerOther(c: Conversation, caller: User, firstId: Id, u: Id)
    requires forall a, b | 0 <= a < b < |c.participants| :: c.participants[a].userId != c.participants[b].userId
    requires c.HasParticipant(u)
    ensures var ns := MessageNotices(Others(c, caller.id), caller.username, c.id, firstId);
      Count(ns, NoticeFor(u)) == if u == caller.id then 0 else 1
  {
    var others := Others(c, caller.id);
    var ns := MessageNotices(others, caller.username, c.id, firstId);
    CountCorresponds(ns, NoticeFor(u), others, EntryOf(u));
    if u == caller.id {
      NoMatch(others, EntryOf(u));
    } else {
      FilterNarrow(c.participants, (p: Participant) => p.userId != caller.id, EntryOf(u));
      var k :| 0 <= k < |c.participants| && c.participants[k].userId == u;
      OnlyOneMatch(c.participants, EntryOf(u), k);
    }
  }

  /** `sendMessage`: in an active conversation the caller takes part in, the message is
      stored, the conversation's `updatedAt` becomes `now`, each other participant is
      notified, and the reply is 201 with the message; otherwise 404 and nothing changes. */
  method SendMessage(db: Db, caller: User, conversationId: Id, content: string, now: Time) returns (r: Reply<Message>)
    requires db.Valid()
    modifies db`messages, db`conversations, db`notifications, db`nextId
    ensures db.Valid()
    ensures FindFirst(old(db.conversations), OpenWith(conversationId, caller.id)).None? ==>
      && r == Fail(404, ConversationNotFound)
      && db.messages == old(db.messages) && db.conversations == old(db.conversations)
      && db.notifications == old(db.notifications) && db.nextId == old(db.nextId)
    ensures FindFirst(old(db.conversations), OpenWith(conversationId, caller.id)).Some? ==>
      var k := FindFirst(old(db.conversations), OpenWith(conversationId, caller.id)).value;
      var c := old(db.conversations)[k];
      var m := NewMessage(old(db.nextId), conversationId, caller.id, content);
      && r == Ok(201, m)
      && db.messages == old(db.messages) + [m]
      && db.conversations == old(db.conversations)[k := c.(updatedAt := now)]
      && db.notifications == old(db.notifications)
           + MessageNotices(Others(c, caller.id), caller.username, conversationId, old(db.nextId) + 1)
      && db.nextId == old(db.nextId) + 1 + |Others(c, caller.id)|
  {
    var found := FindFirst(db.conversations, OpenWith(conversationId, caller.id));
    if found.None? {
      return Fail(404, ConversationNotFound);
    }
    r := Deliver(db, found.value, caller, content, now);
  }

  /** The loop over the other participants: one notice each, in their order. */
  method NotifyOthers(db: Db, others: seq<Participant>, senderName: string, conversationId: Id)
    requires db.Valid()
    modifies db`notifications, db`nextId
    ensures db.Valid()
    ensures db.notifications == old(db.notifications) + MessageNotices(others, senderName, conversationId, old(db.nextId))
    ensures db.nextId == old(db.nextId) + |others|
  {
    var before, firstId := db.notifications, db.nextId;
    ghost var all := MessageNotices(others, senderName, conversationId, firstId);
    NewMessageTitleValid();
    for i := 0 to |others|
      invariant db.Valid()
      invariant db.nextId == firstId + i
      invariant db.notifications == before + all[..i]
    {
      var data := MessageNotice(others[i].userId, senderName, conversationId);
      Notify(db, data);
      assert all[i] == Materialize(data, others[i].userId, firstId + i);
      assert all[..i + 1] == all[..i] + [all[i]];
      assert (before + all[..i]) + [all[i]] == before + (all[..i] + [all[i]]);
    }
    assert all[..|others|] == all;
  }

  /** `sendMessage` once the conversation at position `k` is found. */
  method Deliver(db: Db, k: nat, caller: User, content: string, now: Time) returns (r: Reply<Message>)
    requires db.Valid() && k < |db.conversations|
    modifies db`messages, db`conversations, db`notifications, db`nextId
    ensures db.Valid()
    ensures var c := old(db.conversations)[k];
      var m := NewMessage(old(db.nextId), c.id, caller.id, content);
      && r == Ok(201, m)
      && db.messages == old(db.messages) + [m]
      && db.conversations == old(db.conversations)[k := c.(updatedAt := now)]
      && db.notifications == old(db.notifications)
           + MessageNotices(Others(c, caller.id), caller.username, c.id, old(db.nextId) + 1)
      && db.nextId == old(db.nextId) + 1 + |Others(c, caller.id)|
  {
    var c := db.conversations[k];
    var m := SaveMessage(db, k, caller.id, content, now);
    NotifyOthers(db, Others(c, caller.id), caller.username, c.id);
    r := Ok(201, m);
  }

  /** `message.save()` and then `conversation.save()` with `updatedAt` set to `now`. */
  method SaveMessage(db: Db, k: nat, senderId: Id, content: string, now: Time) returns (m: Message)
    requires db.Valid() && k < |db.conversations|
    modifies db`messages, db`conversations, db`nextId
    ensures db.Valid()
    ensures m == NewMessage(old(db.nextId), old(db.conversations)[k].id, senderId, content)
    ensures db.messages == old(db.messages) + [m] && db.nextId == old(db.nextId) + 1
    ensures db.conversations == old(db.conversations)[k := old(db.conversations)[k].(updatedAt := now)]
  {
    var c := db.conversations[k];
    m := NewMessage(db.nextId, c.id, senderId, content);
    db.AddMessage(m);
    db.SetConversation(k, c.(updatedAt := now));
  }
}
