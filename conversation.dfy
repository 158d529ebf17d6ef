/** The Conversation schema: the chat opened by an accepted connection request. */
module ConversationModel {
  import opened Common

  /** An entry of `participants`: a required user id and when the user joined. */
  datatype Participant = Participant(userId: Id, joinedAt: Time)

  /** `maxlength` of `chatboxName`. */
  const MaxChatboxNameLength: nat := 100

  datatype Conversation = Conversation(
    id: Id,
    requestId: Id,
    isActive: bool,
    chatboxName: Option<string>,
    participants: seq<Participant>,
    updatedAt: Time)
  {
    /** What the schema validates on save: a chat box name of at most 100 characters. */
    predicate Valid() {
      chatboxName.Some? ==> |chatboxName.value| <= MaxChatboxNameLength
    }

    /** `'participants.userId': user` matches this conversation. */
    predicate HasParticipant(user: Id) {
      exists k | 0 <= k < |participants| :: participants[k].userId == user
    }
  }

  /** `new Conversation({ requestId, participants, chatboxName })` at time `now`: active, every
      participant joined now (the `joinedAt` default). */
  function NewConversation(id: Id, requestId: Id, members: seq<Id>, name: string, now: Time): (c: Conversation)
    ensures c.id == id && c.requestId == requestId && c.isActive
    ensures c.chatboxName == Some(name) && c.updatedAt == now
    ensures |c.participants| == |members|
    ensures forall k | 0 <= k < |members| :: c.participants[k] == Participant(members[k], now)
    ensures forall u :: c.HasParticipant(u) <==> u in members
  {
    var ps := seq(|members|, k requires 0 <= k < |members| => Participant(members[k], now));
    var c := Conversation(id, requestId, true, Some(name), ps, now);
    assert forall u | u in members :: c.HasParticipant(u) by {
      forall u | u in members ensures c.HasParticipant(u) {
        var k :| 0 <= k < |members| && members[k] == u;
        assert ps[k].userId == u;
      }
    }
    c
  }
}
