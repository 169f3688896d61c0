/** What `TelegramService.AddUpdate` derives from one update before any handler
    runs: which message, sender and chat the update is about, the flags the
    handlers test, and the command word of the text. */
module UpdateContext {
  import opened Wrappers
  import opened Text
  import opened TelegramTypes

  /** The id of Telegram's own service account, which never counts as a user
      without a username. */
  const TelegramServiceUserId := 777000

  /** The id Telegram puts in `From` when an anonymous group admin writes. */
  const AnonymousAdminId := 1087968824

  /** The derived view of one update; every field is one property of the
      service. */
  datatype Context = Context(
    callbackQuery: Option<CallbackQuery>,
    myChatMember: Option<ChatMemberUpdated>,
    message: Option<Message>,
    editedMessage: Option<Message>,
    channelPost: Option<Message>,
    editedChannelPost: Option<Message>,
    messageOrEdited: Option<Message>,
    channelOrEditedPost: Option<Message>,
    callbackMessage: Option<Message>,
    replyToMessage: Option<Message>,
    anyMessage: Option<Message>,
    replyFromId: int,
    from: Option<User>,
    chat: Option<Chat>,
    senderChat: Option<Chat>,
    messageDate: int,
    fromId: int,
    chatId: int,
    chatTitle: string,
    fromNameLink: string,
    isNoUsername: bool,
    hasUsername: bool,
    isFromSudo: bool,
    isPrivateChat: bool,
    isGroupChat: bool,
    anyMessageText: Option<string>,
    messageOrEditedText: Option<string>,
    messageOrEditedCaption: Option<string>,
    messageTextParts: Option<seq<string>>
  )

  /** The service before any update was added: every reference null, every
      number zero. */
  const Blank := Context(None, None, None, None, None, None, None, None, None, None, None,
                         0, None, None, None, 0, 0, 0, "", "", false, false, false, false, false,
                         None, None, None, None)

  // ------------------------------------------------------------ precedence

  function MessageOrEdited(u: Update): Option<Message> {
    OrElse(u.message, u.editedMessage)
  }

  function ChannelOrEditedPost(u: Update): Option<Message> {
    OrElse(u.channelPost, u.editedChannelPost)
  }

  function CallbackMessage(u: Update): Option<Message> {
    if u.callbackQuery.Some? then u.callbackQuery.value.message else None
  }

  /** `CallbackMessage ?? Message ?? EditedMessage`. */
  function AnyMessage(u: Update): Option<Message> {
    OrElse(CallbackMessage(u), MessageOrEdited(u))
  }

  /** `ChannelOrEditedPost?.From ?? MyChatMember?.From ?? CallbackQuery?.From
      ?? MessageOrEdited?.From`: a post without a sender falls through. */
  function FromOf(u: Update): Option<User> {
    var post := ChannelOrEditedPost(u);
    var moe := MessageOrEdited(u);
    if post.Some? && post.value.from.Some? then post.value.from
    else if u.myChatMember.Some? then Some(u.myChatMember.value.from)
    else if u.callbackQuery.Some? then Some(u.callbackQuery.value.from)
    else if moe.Some? then moe.value.from
    else None
  }

  /** `ChannelOrEditedPost?.Chat ?? MyChatMember?.Chat
      ?? CallbackQuery?.Message?.Chat ?? MessageOrEdited?.Chat`. */
  function ChatOf(u: Update): Option<Chat> {
    var post := ChannelOrEditedPost(u);
    var cbm := CallbackMessage(u);
    var moe := MessageOrEdited(u);
    if post.Some? then Some(post.value.chat)
    else if u.myChatMember.Some? then Some(u.myChatMember.value.chat)
    else if cbm.Some? then Some(cbm.value.chat)
    else if moe.Some? then Some(moe.value.chat)
    else None
  }

  /** `MyChatMember?.Date ?? CallbackQuery?.Message?.Date
      ?? MessageOrEdited?.Date ?? DateTime.Now`. */
  function DateOf(u: Update, now: int): int {
    var cbm := CallbackMessage(u);
    var moe := MessageOrEdited(u);
    if u.myChatMember.Some? then u.myChatMember.value.date
    else if cbm.Some? then cbm.value.date
    else if moe.Some? then moe.value.date
    else now
  }

  function IdOf(from: Option<User>): int {
    if from.Some? then from.value.id else 0
  }

  function FullNameOf(from: Option<User>): string {
    if from.Some? then from.value.fullName else ""
  }

  function NameLinkOf(from: Option<User>): string {
    if from.Some? then from.value.nameLink else ""
  }

  function TextOf(m: Option<Message>): Option<string> {
    if m.Some? then m.value.text else None
  }

  /** `CheckUsername`: the sender is known, is not Telegram's service account
      (compared through `FromId.ToString()`), and has no username. */
  function CheckUsername(from: Option<User>, fromId: int): bool {
    from.Some? && IntToString(fromId) != "777000" && from.value.username.None?
  }

  /** `SplitText(" ")` without the empty parts. */
  function Tokens(text: string): seq<string> {
    NonEmpty(Split(text, ' '))
  }

  /** `AddUpdate`: the derived context, or `None` where the derivation throws
      because the update names no chat (the private-chat test dereferences
      `Chat`). */
  function Derive(u: Update, now: int, sudoers: set<int>): Option<Context> {
    var moe := MessageOrEdited(u);
    var replyTo := if moe.Some? then moe.value.replyToMessage else None;
    var from := FromOf(u);
    var chat := ChatOf(u);
    if chat.None? then None
    else
      var fromId := IdOf(from);
      var moeText := TextOf(moe);
      Some(Context(
        u.callbackQuery, u.myChatMember, u.message, u.editedMessage, u.channelPost, u.editedChannelPost,
        moe, ChannelOrEditedPost(u), CallbackMessage(u), replyTo, AnyMessage(u),
        if replyTo.Some? then IdOf(replyTo.value.from) else 0,
        from, chat,
        if moe.Some? then moe.value.senderChat else None,
        DateOf(u, now),
        fromId, chat.value.id,
        if chat.value.title.Some? then chat.value.title.value else FullNameOf(from),
        NameLinkOf(from),
        CheckUsername(from, fromId), !CheckUsername(from, fromId),
        fromId in sudoers,
        chat.value.chatType == Private,
        chat.value.chatType == Group || chat.value.chatType == Supergroup,
        TextOf(AnyMessage(u)), moeText,
        if moe.Some? then moe.value.caption else None,
        if moeText.Some? then Some(Tokens(moeText.value)) else None))
  }

  // ------------------------------------------------------ queries on it

  /** `GetCommand(withoutSlash, withoutUsername)`: the first word of a text
      that starts with `/`, optionally without its leading slashes and without
      the bot's `@username`; empty when the text is no command. */
  function GetCommand(c: Context, botUsername: string, withoutSlash: bool, withoutUsername: bool): string {
    if c.messageOrEditedText.None? || !StartsWith(c.messageOrEditedText.value, "/") then ""
    else if c.messageTextParts.None? || |c.messageTextParts.value| == 0 then ""
    else
      var cmd := c.messageTextParts.value[0];
      var bare := if withoutSlash then TrimStartChars(cmd, {'/'}) else cmd;
      if withoutUsername then Replace(bare, "@" + botUsername, "") else bare
  }

  function IsCommand(c: Context, botUsername: string, command: string): bool {
    GetCommand(c, botUsername, false, true) == command
  }

  /** `CheckFromAnonymous`: sent by the anonymous-admin account on behalf of
      this very chat. It dereferences `SenderChat` whenever the sender is
      that account. */
  function CheckFromAnonymous(c: Context): (r: Exit<bool>)
    ensures r.Raised? <==> c.fromId == AnonymousAdminId && c.senderChat.None?
    ensures r == Returned(true) <==> c.fromId == AnonymousAdminId && c.senderChat.Some? && c.senderChat.value.id == c.chatId
  {
    if c.fromId != AnonymousAdminId then Returned(false)
    else if c.senderChat.None? then Raised
    else Returned(c.chatId == c.senderChat.value.id)
  }

  /** `IsUpdateTooOld(offset)`: a callback is never too old; anything else is
      when its date lies more than `offset` minutes before now. */
  function IsUpdateTooOld(c: Context, now: int, offsetMinutes: int): bool {
    c.callbackQuery.None? && now - offsetMinutes * 60 > c.messageDate
  }

  // ----------------------------------------------------------------- facts

  /** What a handler relies on when it asks, at time `later`, whether the
      update the service received at `now` is too old: an update answering a
      callback never is; any other is too old exactly when its own date (the
      membership change's, else the message's, else the receiving time) lies
      more than `k` minutes before `later`. An update with no dated part is
      never too old at the time it was received, and a larger offset only
      makes fewer updates too old. */
  lemma TooOldOfDerived(u: Update, now: int, sudoers: set<int>, later: int, k: int, m: int)
    requires Derive(u, now, sudoers).Some?
    ensures var c := Derive(u, now, sudoers).value;
      && (u.callbackQuery.Some? ==> !IsUpdateTooOld(c, later, k))
      && (u.callbackQuery.None? ==> (IsUpdateTooOld(c, later, k) <==> DateOf(u, now) < later - k * 60))
      && (u.callbackQuery.None? && u.myChatMember.None? && CallbackMessage(u).None? && MessageOrEdited(u).Some? ==>
            (IsUpdateTooOld(c, later, k) <==> MessageOrEdited(u).value.date < later - k * 60))
      && (u.myChatMember.None? && CallbackMessage(u).None? && MessageOrEdited(u).None? && k >= 0 ==>
            !IsUpdateTooOld(c, now, k))
      && (k <= m && IsUpdateTooOld(c, later, m) ==> IsUpdateTooOld(c, later, k))
  {
  }

  lemma ServiceIdText()
    ensures IntToString(TelegramServiceUserId) == "777000"
  {
    assert NatToString(7) == "7";
    assert NatToString(77) == "77";
    assert NatToString(777) == "777";
    assert NatToString(7770) == "7770";
    assert NatToString(77700) == "77700";
    assert NatToString(777000) == "777000";
  }

  /** The username check, stated on numbers: Telegram's service account is
      exempt and an unknown sender never counts as lacking a username;
      `HasUsername` is always its negation. */
  lemma UsernameFlags(u: Update, now: int, sudoers: set<int>)
    requires Derive(u, now, sudoers).Some?
    ensures var c := Derive(u, now, sudoers).value;
      && (c.isNoUsername <==> c.from.Some? && c.from.value.id != TelegramServiceUserId && c.from.value.username.None?)
      && c.hasUsername == !c.isNoUsername
  {
    ServiceIdText();
    var c := Derive(u, now, sudoers).value;
    IntToStringInjective(c.fromId, TelegramServiceUserId);
  }

  /** Ids of absent parts read as 0; the chat id is the chat's. */
  lemma IdsOfAbsentParts(u: Update, now: int, sudoers: set<int>)
    requires Derive(u, now, sudoers).Some?
    ensures var c := Derive(u, now, sudoers).value;
      && c.chat.Some? && c.chatId == c.chat.value.id
      && (c.from.None? ==> c.fromId == 0)
      && (c.from.Some? ==> c.fromId == c.from.value.id)
      && (c.replyToMessage.None? ==> c.replyFromId == 0)
  {
  }

  /** The derivation fails exactly when no part of the update carries a chat. */
  lemma DeriveFailsWithoutChat(u: Update, now: int, sudoers: set<int>)
    ensures Derive(u, now, sudoers).None? <==>
      (u.channelPost.None? && u.editedChannelPost.None? && u.myChatMember.None?
       && CallbackMessage(u).None? && u.message.None? && u.editedMessage.None?)
  {
  }

  /** A chat is never both private and a group. */
  lemma ChatKindsExclusive(u: Update, now: int, sudoers: set<int>)
    requires Derive(u, now, sudoers).Some?
    ensures var c := Derive(u, now, sudoers).value; !(c.isPrivateChat && c.isGroupChat)
  {
  }

  /** `AnyMessage` never looks at channel posts: two updates that differ only
      in their posts agree on it, and on the text read from it. */
  lemma AnyMessageIgnoresPosts(u: Update, p: Option<Message>, q: Option<Message>, now: int, sudoers: set<int>)
    requires Derive(u, now, sudoers).Some?
    requires Derive(u.(channelPost := p, editedChannelPost := q), now, sudoers).Some?
    ensures var c := Derive(u, now, sudoers).value;
            var d := Derive(u.(channelPost := p, editedChannelPost := q), now, sudoers).value;
            c.anyMessage == d.anyMessage && c.anyMessageText == d.anyMessageText
  {
  }

  /** A callback's message wins over the plain message for `AnyMessage`, and
      its chat wins unless a post or a membership change names another. */
  lemma CallbackMessageWins(u: Update, now: int, sudoers: set<int>)
    requires u.callbackQuery.Some? && u.callbackQuery.value.message.Some?
    ensures Derive(u, now, sudoers).Some?
    ensures var c := Derive(u, now, sudoers).value;
      && c.anyMessage == u.callbackQuery.value.message
      && (u.channelPost.None? && u.editedChannelPost.None? && u.myChatMember.None? ==>
            c.chat == Some(u.callbackQuery.value.message.value.chat))
  {
  }

  /** A membership change fixes the message date whatever else the update
      holds; with no dated part at all the date is the clock's. */
  lemma MessageDateSources(u: Update, now: int, sudoers: set<int>)
    requires Derive(u, now, sudoers).Some?
    ensures var c := Derive(u, now, sudoers).value;
      && (u.myChatMember.Some? ==> c.messageDate == u.myChatMember.value.date)
      && (u.myChatMember.None? && CallbackMessage(u).None? && MessageOrEdited(u).None? ==> c.messageDate == now)
  {
  }

  /** The sender of a channel post is taken from the post only when the post
      carries one; otherwise the later sources decide. */
  lemma PostSenderFallsThrough(u: Update, now: int, sudoers: set<int>)
    requires ChannelOrEditedPost(u).Some? && ChannelOrEditedPost(u).value.from.None?
    ensures Derive(u, now, sudoers).Some?
    ensures var c := Derive(u, now, sudoers).value;
      c.from == FromOf(u.(channelPost := None, editedChannelPost := None))
  {
  }

  /** The tokens of a text: no token is empty or holds a space, and together
      they are the text with its spaces removed. */
  lemma TokensFacts(text: string)
    ensures forall i :: 0 <= i < |Tokens(text)| ==> Tokens(text)[i] != "" && ' ' !in Tokens(text)[i]
    ensures Concat(Tokens(text)) == Without(text, ' ')
  {
    var parts := Split(text, ' ');
    ConcatNonEmpty(parts);
    ConcatSplit(text, ' ');
    forall i | 0 <= i < |Tokens(text)|
      ensures ' ' !in Tokens(text)[i]
    {
      assert Tokens(text)[i] in parts;
    }
  }

  /** A text that starts with `/` has a first token, it starts the text, and
      it is where the slash is. */
  lemma {:induction false} CommandToken(text: string)
    requires StartsWith(text, "/")
    ensures |Tokens(text)| > 0
    ensures Tokens(text)[0] == Split(text, ' ')[0]
    ensures StartsWith(text, Tokens(text)[0]) && Tokens(text)[0][0] == '/'
  {
    var parts := Split(text, ' ');
    assert text[0] == '/';
    assert parts[0] == [text[0]] + Split(text[1..], ' ')[0];
    SplitHeadIsPrefix(text, ' ');
  }

  /** The first token of `word@bot rest` or `word rest` is the word with
      its mention, and removing the mention leaves the word. */
  lemma {:induction false} CommandHead(word: string, mentioned: bool, bot: string, tail: string)
    requires StartsWith(word, "/") && ' ' !in word && '@' !in word && ' ' !in bot
    requires tail == "" || tail[0] == ' '
    ensures var head := word + (if mentioned then "@" + bot else "");
      && StartsWith(head + tail, "/")
      && |Tokens(head + tail)| > 0 && Tokens(head + tail)[0] == head
      && Replace(head, "@" + bot, "") == word
  {
    var p := "@" + bot;
    var head := word + (if mentioned then p else "");
    var text := head + tail;
    assert head[..|word|] == word;
    assert text[..|head|] == head;
    assert ' ' !in head by {
      if mentioned {
        assert forall i :: 0 <= i < |head| ==> head[i] == (if i < |word| then word[i] else p[i - |word|]);
      }
    }
    if tail == "" {
      assert text == head;
      SplitNoSeparator(head, ' ');
    } else {
      assert text == head + [' '] + tail[1..];
      SplitAfter(head, tail[1..], ' ');
    }
    CommandToken(text);
    if mentioned {
      ReplaceAfterHead(word, p, "", "");
      assert head == word + p + "";
    } else {
      assert head == word;
      NotContainsHead(word, p);
      ReplaceAbsent(word, p, "");
    }
  }

  /** `GetCommand` with the default flags reads the first word of a derived
      command text, removing the bot's mention of itself: for the text
      `word@bot rest` or `word rest` it is `word`, so `IsCommand(word)`. */
  lemma {:induction false} CommandWord(u: Update, now: int, sudoers: set<int>, word: string, mentioned: bool, bot: string, tail: string)
    requires Derive(u, now, sudoers).Some?
    requires StartsWith(word, "/") && ' ' !in word && '@' !in word && ' ' !in bot
    requires tail == "" || tail[0] == ' '
    requires MessageOrEdited(u).Some?
    requires MessageOrEdited(u).value.text == Some(word + (if mentioned then "@" + bot else "") + tail)
    ensures IsCommand(Derive(u, now, sudoers).value, bot, word)
  {
    CommandHead(word, mentioned, bot, tail);
    var c := Derive(u, now, sudoers).value;
    var text := word + (if mentioned then "@" + bot else "") + tail;
    assert c.messageOrEditedText == Some(text);
    assert c.messageTextParts == Some(Tokens(text));
  }
}
