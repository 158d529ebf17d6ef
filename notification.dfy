/** The Notification schema: owned by one user, of one of seven kinds, with a title, content,
    read flag and an optional reference to the record it is about. */
module NotificationModel {
  import opened Common

  /** `type`: the seven kinds of notification. */
  datatype NotificationType =
    | ConnectionRequestType | RequestAcceptedType | RequestRejectedType
    | NewLetterType | NewMessageType | LetterApprovedType | LetterRejectedType
  {
    function Name(): string {
      match this
      case ConnectionRequestType => "connection_request"
      case RequestAcceptedType => "request_accepted"
      case RequestRejectedType => "request_rejected"
      case NewLetterType => "new_letter"
      case NewMessageType => "new_message"
      case LetterApprovedType => "letter_approved"
      case LetterRejectedType => "letter_rejected"
    }
  }

  /** `relatedType`: enum `connection_request`, `letter`, `message`, `conversation`. */
  datatype RelatedType = RelatedConnectionRequest | RelatedLetter | RelatedMessage | RelatedConversation

  /** `maxlength` of `title`. */
  const MaxTitleLength: nat := 255

  datatype Notification = Notification(
    id: Id,
    userId: Id,
    kind: NotificationType,
    title: string,
    content: Option<string>,
    isRead: bool,
    relatedId: Option<Id>,
    relatedType: Option<RelatedType>)

  /** What the schema validates of the title: required (not empty) and at most 255 characters. */
  predicate TitleValid(title: string) {
    title != "" && |title| <= MaxTitleLength
  }
}
