/** The parts of Telegram's Bot API objects that the bot reads: an update with
    its optional parts, the messages, users and chats inside it, and the
    requests the bot sends back. Every nullable reference is an `Option`. */
module TelegramTypes {
  import opened Wrappers

  datatype ChatType = Private | Group | Supergroup | Channel | Sender

  datatype Chat = Chat(id: int, chatType: ChatType, title: Option<string>)

  /** A user. `fullName` and `nameLink` are what the bot's `GetFullName` and
      `GetNameLink` helpers render for the user; the renderers are not part
      of this model. */
  datatype User = User(
    id: int,
    firstName: string,
    lastName: Option<string>,
    username: Option<string>,
    fullName: string,
    nameLink: string
  )

  datatype EntityType = Mention | Url | OtherEntity

  /** A message. `fileId` is what the bot's `GetFileId` finds in it (photo,
      document, sticker, ...), `messageType` its Bot API message type. */
  datatype Message = Message(
    messageId: int,
    chat: Chat,
    from: Option<User>,
    senderChat: Option<Chat>,
    date: int,
    text: Option<string>,
    caption: Option<string>,
    entities: Option<seq<EntityType>>,
    captionEntities: Option<seq<EntityType>>,
    replyToMessage: Option<Message>,
    fileId: Option<string>,
    messageType: string
  )

  datatype CallbackQuery = CallbackQuery(id: string, from: User, message: Option<Message>)

  datatype ChatMemberUpdated = ChatMemberUpdated(chat: Chat, from: User, date: int)

  /** One raw update: at most a few of its parts are present. */
  datatype Update = Update(
    id: int,
    message: Option<Message>,
    editedMessage: Option<Message>,
    channelPost: Option<Message>,
    editedChannelPost: Option<Message>,
    callbackQuery: Option<CallbackQuery>,
    myChatMember: Option<ChatMemberUpdated>
  )

  datatype Button = Button(text: string, data: string)

  /** Reply markup: none, an inline keyboard, or a keyboard that the bot's
      `ToReplyMarkup` parses out of a stored button text. */
  datatype Markup = NoMarkup | Inline(rows: seq<seq<Button>>) | ParsedButtons(raw: string, columns: nat)

  /** One item of a media album. */
  datatype AlbumItem = DocumentItem(fileName: string, caption: string)

  /** The eight member permissions that `RestrictMemberAsync` sets. */
  datatype Permissions = Permissions(
    canSendMessages: bool,
    canSendMediaMessages: bool,
    canSendOtherMessages: bool,
    canAddWebPagePreviews: bool,
    canChangeInfo: bool,
    canInviteUsers: bool,
    canPinMessages: bool,
    canSendPolls: bool
  )

  /** A request to the Bot API, as the bot issues it. Dates are seconds. */
  datatype Call =
    | SendText(chatId: int, text: string, replyTo: int, markup: Markup, disablePreview: bool)
    | EditText(chatId: int, messageId: int, text: string, markup: Markup, disablePreview: bool)
    | DeleteMessage(chatId: int, messageId: int)
    | RestrictMember(chatId: int, userId: int, permissions: Permissions, until: int)
    | BanMember(chatId: int, userId: int, until: int)
    | UnbanMember(chatId: int, userId: int)
    | AnswerCallbackQuery(queryId: string, text: string, showAlert: bool)
    | SendMediaGroup(chatId: int, album: seq<AlbumItem>)
    | SendDocument(chatId: int, file: string, caption: string, markup: Markup, replyTo: int)
    | SendPhoto(chatId: int, file: string, caption: string, markup: Markup, replyTo: int)
    | SendVideo(chatId: int, file: string, caption: string, markup: Markup, replyTo: int)

  /** The Bot API's answer to one request: success (with the id of the
      message it produced, where there is one) or an exception, which the
      bot's `IsErrorAsWarning` classifies as a warning or as an error. */
  datatype Outcome = Ok(id: int) | Fail(isWarning: bool, message: string)

  /** The message a send or an edit produced: its chat and its id. */
  datatype SentRef = SentRef(chatId: int, messageId: int)
}
