/** The state machine behind `TelegramService`: what each of its operations
    does to the service's state (the current update's context, the last sent
    message, the appended text) and to the outside world (the requests sent
    to the Bot API, the message-history rows, the verification step rows and
    the scheduled kick jobs), as pure functions on a `State` value. The class
    in the `Gateway` module is proved to follow them. */
module GatewaySpec {
  import opened Wrappers
  import opened Text
  import opened TelegramTypes
  import opened UpdateContext
  import Settings

  // ------------------------------------------------------------ vocabulary

  /** `MessageFlag`: the kind a message-history row records. */
  datatype MessageFlag = General | SpamDetection | OtherFlag(name: string)

  /** One row handed to the message-history store: which message of which
      chat to delete when. */
  datatype HistoryRow = HistoryRow(flag: MessageFlag, fromId: int, chatId: int, messageId: int, deleteAt: int)

  datatype StepHistoryName = ChatMemberUsername | ChatMemberPhoto | HumanVerification

  /** `name.Humanize()`: the Pascal-case name as a sentence. */
  function HumanizeStep(name: StepHistoryName): string {
    match name
    case ChatMemberUsername => "Chat member username"
    case ChatMemberPhoto => "Chat member photo"
    case HumanVerification => "Human verification"
  }

  datatype StepHistoryStatus = NeedVerify | Verified

  /** A verification step a member still has to pass. */
  datatype StepHistory = StepHistory(
    name: StepHistoryName,
    chatId: int,
    userId: int,
    firstName: string,
    lastName: Option<string>,
    reason: string,
    status: StepHistoryStatus,
    jobId: nat,
    lastWarnMessageId: int
  )

  /** A background job that kicks the member after `delaySeconds`. */
  datatype KickJob = KickJob(chatId: int, userId: int, delaySeconds: int)

  datatype TelegramResult = TelegramResult(isSuccess: bool, error: Option<string>)

  datatype RequestResult = RequestResult(sentMessages: Option<seq<SentRef>>, error: Option<string>)

  datatype CallbackAnswerMode =
    | AnswerCallbackMode | SendMessageMode | EditMessageMode | BanMemberMode
    | MuteMemberMode | DeleteMessageMode | KickMemberMode | ScheduleKickMemberMode
    | UnknownMode(code: int)

  /** What a callback handler asks for: the modes to run and their inputs. */
  datatype CallbackAnswer = CallbackAnswer(
    modes: seq<CallbackAnswerMode>,
    text: string,
    markup: Markup,
    muteSeconds: int,
    deleteMessageId: int
  )

  /** `KickTimeOffset`: one minute, as seconds and as `Humanize()` prints it. */
  const KickTimeOffsetSeconds := 60
  const KickTimeOffsetText := "1 minute"

  /** `DateTime.UtcNow.AddDays(366)` as an offset in seconds. */
  const DefaultRestrictSeconds := 366 * 86400

  /** `DateTime.UtcNow.AddMinutes(1)`, the default deletion time of a row. */
  const DefaultHistorySeconds := 60

  // ------------------------------------------------ environment and state

  /** What the service reads but does not own. `respond(n)` is the Bot API's
      answer to the n-th request of the service's lifetime and `groupIds(n)`
      the ids of the messages that request produced when it was an album;
      `now` is the clock (a `DateTime` of `default` is 0); `delay` is the
      bot's `GetDelay` at that clock. */
  datatype Env = Env(
    respond: nat -> Outcome,
    groupIds: nat -> seq<int>,
    now: nat,
    botUsername: string,
    sudoers: set<int>,
    botAdminChats: set<int>,
    chatAdmins: set<(int, int)>,
    settingOf: int -> Settings.ChatSetting,
    hasProfilePhoto: (int, int) -> bool,
    parseFlag: string -> Option<MessageFlag>,
    delay: int -> string
  )

  /** The service's fields, and the effects it has had so far. */
  datatype State = State(
    update: Option<Update>,
    ctx: Context,
    timeInit: string,
    sentMessage: Option<SentRef>,
    appendText: string,
    calls: seq<Call>,
    history: seq<HistoryRow>,
    steps: seq<StepHistory>,
    jobs: seq<KickJob>
  )

  /** A new service: no update yet, nothing sent. */
  const Initial := State(None, Blank, "", None, "", [], [], [], [])

  /** The state after an operation and how the operation left. */
  datatype Step<+T> = Step(state: State, exit: Exit<T>)

  function Unit<T>(x: Exit<T>): Exit<()> {
    if x.Raised? then Raised else Returned(())
  }

  // ------------------------------------------------------------ the update

  /** `AddUpdateContext`: store the update and derive its context. */
  function AddUpdateContext(e: Env, s: State, u: Update): Step<()> {
    AddUpdate(e, s.(update := Some(u)), u)
  }

  /** `AddUpdate(update)`, derivation from its argument. */
  function AddUpdate(e: Env, s: State, u: Update): Step<()> {
    var c := Derive(u, e.now, e.sudoers);
    if c.None? then Step(s, Raised)
    else Step(s.(ctx := c.value, timeInit := e.delay(c.value.messageDate)), Returned(()))
  }

  /** `AddUpdate(update)` as written: it derives from the stored `Update`
      field and never reads its argument. */
  function AddUpdateAsWritten(e: Env, s: State, u: Update): Step<()> {
    if s.update.None? then Step(s, Raised)
    else AddUpdate(e, s, s.update.value)
  }

  // ------------------------------------------------------------ sending

  /** The timing annotation `SendTextMessageAsync` and `EditMessageTextAsync`
      append. */
  function Timing(timeInit: string, timeProc: string): string {
    "\n\n\U{23F1} <code>" + timeInit + " s</code> | \U{231B}\U{FE0F} <code>" + timeProc + " s</code>"
  }

  /** The text actually sent: annotated unless empty or answering a callback. */
  function SendBody(e: Env, s: State, text: string): string {
    if text != "" && s.ctx.callbackQuery.None? then text + Timing(s.timeInit, e.delay(s.ctx.messageDate)) else text
  }

  /** The reply target: the given id, or for -1 the message the update is
      about (or -1 without one). */
  function ReplyTarget(c: Context, replyToMsgId: int): int {
    if replyToMsgId != -1 then replyToMsgId
    else if c.anyMessage.Some? then c.anyMessage.value.messageId
    else -1
  }

  datatype Attempt = Attempt(state: State, reachedEnd: bool)

  /** The send with its single retry: a failure classified as a warning is
      retried once without the reply target and preview setting (and the
      retry's own failure swallowed); any other failure ends the call early. */
  function SendAttempts(e: Env, s: State, target: int, text: string, replyTo: int, markup: Markup, disablePreview: bool): Attempt {
    var s1 := s.(calls := s.calls + [SendText(target, text, replyTo, markup, disablePreview)]);
    match e.respond(|s.calls|)
    case Ok(id) => Attempt(s1.(sentMessage := Some(SentRef(target, id))), true)
    case Fail(warning, _) =>
      if !warning then Attempt(s1, false)
      else
        var s2 := s1.(calls := s1.calls + [SendText(target, text, 0, markup, false)]);
        match e.respond(|s1.calls|)
        case Ok(id) => Attempt(s2.(sentMessage := Some(SentRef(target, id))), true)
        case Fail(_, _) => Attempt(s2, true)
  }

  /** `SendTextMessageAsync`. */
  function Send(e: Env, s: State, text: string, markup: Markup, replyToMsgId: int, customChatId: int,
                disablePreview: bool, deleteAt: int, includeSender: bool): Step<Option<SentRef>>
  {
    var body := SendBody(e, s, text);
    if s.ctx.chat.None? then Step(s, Raised)
    else
      var target := if customChatId < -1 then customChatId else s.ctx.chat.value.id;
      var replyTo := ReplyTarget(s.ctx, replyToMsgId);
      if body == "" then Step(s, Returned(None))
      else
        var a := SendAttempts(e, s, target, body, replyTo, markup, disablePreview);
        if !a.reachedEnd then Step(a.state, Returned(a.state.sentMessage))
        else if a.state.sentMessage.None? then Step(a.state, Raised)
        else if deleteAt == 0 then Step(a.state, Returned(a.state.sentMessage))
        else
          var h := SaveToMessageHistory(e, a.state, deleteAt, includeSender);
          Step(h.state, if h.exit.Raised? then Raised else Returned(a.state.sentMessage))
  }

  /** `SaveMessageToHistoryAsync`: one row for the current chat and sender. */
  function SaveMessageToHistory(e: Env, s: State, messageId: int, flag: MessageFlag, deleteAt: int): State {
    var at := if deleteAt == 0 then e.now + DefaultHistorySeconds else deleteAt;
    s.(history := s.history + [HistoryRow(flag, s.ctx.fromId, s.ctx.chatId, messageId, at)])
  }

  /** The flag of the current command (`GetCommand(true).ToEnum(General)`). */
  function CommandFlag(e: Env, c: Context): MessageFlag {
    e.parseFlag(GetCommand(c, e.botUsername, true, true)).GetOr(General)
  }

  /** `SaveToMessageHistory`: a row for the sent message and, when asked,
      one for the sender's message; either missing message throws. */
  function SaveToMessageHistory(e: Env, s: State, deleteAt: int, includeSender: bool): Step<()> {
    var flag := CommandFlag(e, s.ctx);
    if s.sentMessage.None? then Step(s, Raised)
    else
      var s1 := SaveMessageToHistory(e, s, s.sentMessage.value.messageId, flag, deleteAt);
      if !includeSender then Step(s1, Returned(()))
      else if s.ctx.messageOrEdited.None? then Step(s1, Raised)
      else Step(SaveMessageToHistory(e, s1, s.ctx.messageOrEdited.value.messageId, flag, deleteAt), Returned(()))
  }

  /** `SaveSenderMessageToHistory`: a row for the sender's message, which
      must exist. */
  function SaveSenderMessageToHistory(e: Env, s: State, flag: MessageFlag, deleteAt: int): Step<()> {
    if s.ctx.messageOrEdited.None? then Step(s, Raised)
    else Step(SaveMessageToHistory(e, s, s.ctx.messageOrEdited.value.messageId, flag, deleteAt), Returned(()))
  }

  /** `SaveSentMessageToHistory`: a row for the sent message, which must
      exist. */
  function SaveSentMessageToHistory(e: Env, s: State, flag: MessageFlag, deleteAt: int): Step<()> {
    if s.sentMessage.None? then Step(s, Raised)
    else Step(SaveMessageToHistory(e, s, s.sentMessage.value.messageId, flag, deleteAt), Returned(()))
  }

  /** `EditMessageTextAsync` as written: a successful edit returns at once,
      so a requested deletion is recorded only after an edit that failed
      with an error. */
  function EditAsWritten(e: Env, s: State, text: string, markup: Markup, disablePreview: bool,
                         deleteAt: int, includeSender: bool): Step<Option<SentRef>>
  {
    var body := if text != "" then text + Timing(s.timeInit, e.delay(s.ctx.messageDate)) else text;
    if s.sentMessage.None? then Step(s, Raised)
    else
      var s1 := s.(calls := s.calls + [EditText(s.ctx.chatId, s.sentMessage.value.messageId, body, markup, disablePreview)]);
      match e.respond(|s.calls|)
      case Ok(id) => Step(s1.(sentMessage := Some(SentRef(s.ctx.chatId, id))), Returned(Some(SentRef(s.ctx.chatId, id))))
      case Fail(warning, _) =>
        if warning || deleteAt == 0 then Step(s1, Returned(s1.sentMessage))
        else
          var h := SaveToMessageHistory(e, s1, deleteAt, includeSender);
          Step(h.state, if h.exit.Raised? then Raised else Returned(s1.sentMessage))
  }

  /** `EditMessageTextAsync` with the requested deletion recorded after a
      successful edit as well, as `SendTextMessageAsync` does. */
  function Edit(e: Env, s: State, text: string, markup: Markup, disablePreview: bool,
                deleteAt: int, includeSender: bool): Step<Option<SentRef>>
  {
    var body := if text != "" then text + Timing(s.timeInit, e.delay(s.ctx.messageDate)) else text;
    if s.sentMessage.None? then Step(s, Raised)
    else
      var s1 := s.(calls := s.calls + [EditText(s.ctx.chatId, s.sentMessage.value.messageId, body, markup, disablePreview)]);
      var o := e.respond(|s.calls|);
      var s2 := if o.Ok? then s1.(sentMessage := Some(SentRef(s.ctx.chatId, o.id))) else s1;
      if (o.Fail? && o.isWarning) || deleteAt == 0 then Step(s2, Returned(s2.sentMessage))
      else
        var h := SaveToMessageHistory(e, s2, deleteAt, includeSender);
        Step(h.state, if h.exit.Raised? then Raised else Returned(s2.sentMessage))
  }

  /** `AppendTextAsync`: the first piece is sent, every later one is added on
      a new line and the whole text edited into the same message. */
  function AppendText(e: Env, s: State, text: string, markup: Markup): Step<()> {
    if s.appendText == "" then
      var r := Send(e, s.(appendText := text), text, markup, -1, -1, false, 0, false);
      Step(r.state, Unit(r.exit))
    else
      var whole := s.appendText + "\n" + text;
      var r := Edit(e, s.(appendText := whole), whole, markup, true, 0, false);
      Step(r.state, Unit(r.exit))
  }

  /** `DeleteAsync(messageId)`: -1 means the last sent message; every
      failure, a missing sent message included, is swallowed. */
  function Delete(e: Env, s: State, messageId: int): State {
    if messageId == -1 && s.sentMessage.None? then s
    else
      var target := if messageId != -1 then messageId else s.sentMessage.value.messageId;
      s.(calls := s.calls + [DeleteMessage(s.ctx.chatId, target)])
  }

  /** `AnswerCallbackQueryAsync`: a missing callback is swallowed. */
  function AnswerCallback(e: Env, s: State, text: string, showAlert: bool): State {
    if s.ctx.callbackQuery.None? then s
    else s.(calls := s.calls + [AnswerCallbackQuery(s.ctx.callbackQuery.value.id, text, showAlert)])
  }

  /** `SendMediaGroupAsync`: the album as one request; the sent messages on
      success, the error otherwise. */
  function SendMediaGroup(e: Env, s: State, album: seq<AlbumItem>): (State, RequestResult) {
    var s1 := s.(calls := s.calls + [Call.SendMediaGroup(s.ctx.chatId, album)]);
    var ids := e.groupIds(|s.calls|);
    match e.respond(|s.calls|)
    case Ok(_) => (s1, RequestResult(Some(seq(|ids|, i requires 0 <= i < |ids| => SentRef(s.ctx.chatId, ids[i]))), None))
    case Fail(_, m) => (s1, RequestResult(None, Some(m)))
  }

  /** The request `SendMediaAsync` makes for a media type, if any. */
  function MediaCall(mediaType: Settings.MediaType, chatId: int, file: string, caption: string, markup: Markup,
                     replyTo: int): Option<Call>
  {
    match mediaType
    case Document => Some(SendDocument(chatId, file, caption, markup, replyTo))
    case LocalDocument => Some(SendDocument(chatId, file, caption, markup, replyTo))
    case Photo => Some(SendPhoto(chatId, file, caption, markup, replyTo))
    case Video => Some(SendVideo(chatId, file, caption, markup, replyTo))
    case UnknownMedia => None
  }

  /** `SendMediaAsync`: the file with its caption annotated like a text; an
      unknown type sends nothing. It reads the update's `Message` first and
      lets the Bot API's exceptions through. */
  function SendMedia(e: Env, s: State, file: string, mediaType: Settings.MediaType, caption: string,
                     markup: Markup, replyToMsgId: int): Step<Option<SentRef>>
  {
    if s.ctx.message.None? then Step(s, Raised)
    else
      var annotated := if caption != "" then caption + Timing(s.timeInit, e.delay(s.ctx.message.value.date)) else caption;
      var call := MediaCall(mediaType, s.ctx.chatId, file, annotated, markup, replyToMsgId);
      if call.None? then Step(s, Returned(None))
      else
        var s1 := s.(calls := s.calls + [call.value]);
        match e.respond(|s.calls|)
        case Ok(id) => Step(s1.(sentMessage := Some(SentRef(s.ctx.chatId, id))), Returned(Some(SentRef(s.ctx.chatId, id))))
        case Fail(_, _) => Step(s1, Raised)
  }

  // ------------------------------------------------------------- members

  /** All eight permissions granted on unmute, all withdrawn otherwise. */
  function AllPermissions(granted: bool): Permissions {
    Permissions(granted, granted, granted, granted, granted, granted, granted, granted)
  }

  /** The restriction's end: now for an unmute, the given time otherwise, and
      366 days from now when none was given. */
  function RestrictUntil(now: int, unMute: bool, until: int): int {
    if unMute then now else if until == 0 then now + DefaultRestrictSeconds else until
  }

  /** `RestrictMemberAsync`: every failure becomes an unsuccessful result. */
  function Restrict(e: Env, s: State, userId: int, unMute: bool, until: int): (State, TelegramResult) {
    var s1 := s.(calls := s.calls + [RestrictMember(s.ctx.chatId, userId, AllPermissions(unMute), RestrictUntil(e.now, unMute, until))]);
    match e.respond(|s.calls|)
    case Ok(_) => (s1, TelegramResult(true, None))
    case Fail(_, m) => (s1, TelegramResult(false, Some(m)))
  }

  /** `UnBanMemberAsync`: a failure is reported to the chat as a message. */
  function UnBan(e: Env, s: State, userId: int): Step<()> {
    var s1 := s.(calls := s.calls + [UnbanMember(s.ctx.chatId, userId)]);
    match e.respond(|s.calls|)
    case Ok(_) => Step(s1, Returned(()))
    case Fail(_, m) =>
      var r := Send(e, s1, m, NoMarkup, -1, -1, false, 0, false);
      Step(r.state, Unit(r.exit))
  }

  /** `KickMemberAsync`: ban until now and, when asked, lift the ban; true
      unless something threw on the way. */
  function Kick(e: Env, s: State, userId: int, unban: bool): (State, bool) {
    var s1 := s.(calls := s.calls + [BanMember(s.ctx.chatId, userId, e.now)]);
    if e.respond(|s.calls|).Fail? then (s1, false)
    else if !unban then (s1, true)
    else
      var u := UnBan(e, s1, userId);
      (u.state, u.exit.Returned?)
  }

  // ---------------------------------------------------------- privileges

  function CheckBotAdmin(e: Env, c: Context): bool {
    !c.isPrivateChat && c.chatId in e.botAdminChats
  }

  /** `CheckFromAdmin(userId)`: never in a private chat; a positive `userId`
      first replaces `FromId`, then the admin list of the chat decides. */
  function CheckFromAdmin(e: Env, s: State, userId: int): (State, bool) {
    if s.ctx.isPrivateChat then (s, false)
    else
      var c := if userId > 0 then s.ctx.(fromId := userId) else s.ctx;
      (s.(ctx := c), (c.chatId, c.fromId) in e.chatAdmins)
  }

  function IsFromAdmin(e: Env, c: Context): bool {
    !c.isPrivateChat && (c.chatId, c.fromId) in e.chatAdmins
  }

  /** `CheckPermission`: private chats, chats where the bot is no admin and
      admins are exempt from the member checks. */
  function CheckPermission(e: Env, c: Context): bool {
    c.isPrivateChat || !CheckBotAdmin(e, c) || IsFromAdmin(e, c)
  }

  /** `CheckFromAdminOrAnonymous`. */
  function CheckFromAdminOrAnonymous(e: Env, c: Context): Exit<bool> {
    match CheckFromAnonymous(c)
    case Raised => Raised
    case Returned(anonymous) => Returned(anonymous || IsFromAdmin(e, c))
  }

  /** `CheckUserPermission`. */
  function CheckUserPermission(e: Env, c: Context): Exit<bool> {
    if c.isPrivateChat then Returned(true) else CheckFromAdminOrAnonymous(e, c)
  }

  /** `GetEventLogTargets`: the global and the chat's log channel, kept only
      when they are channel ids (negative). */
  function EventLogTargets(globalTarget: int, chatTarget: int): (r: seq<int>)
    ensures forall x :: x in r <==> (x == globalTarget || x == chatTarget) && x < 0
    ensures |r| == (if globalTarget < 0 then 1 else 0) + (if chatTarget < 0 then 1 else 0)
    ensures |r| == 2 ==> r == [globalTarget, chatTarget]
  {
    (if globalTarget < 0 then [globalTarget] else []) + (if chatTarget < 0 then [chatTarget] else [])
  }

  // ------------------------------------------------- verification steps

  /** The warning text of `SendWarningStep`. */
  function WarnText(nameLink: string, feature: string): string {
    "Hai " + nameLink + ", kamu belum mengatur " + feature + ". silakan atur " + feature + " yak. "
    + "Jika sudah atur " + feature + ", silakan tekan tombol dibawah ini untuk verifikasi, "
    + "atau dalam <b>" + KickTimeOffsetText + "</b>, Anda akan di tendang!"
  }

  const VerifyMarkup := Inline([[Button("Verifikasi", "verify")]])

  /** `GetStepHistoryCore`: the stored step of this member and name. */
  function FindStep(steps: seq<StepHistory>, chatId: int, userId: int, name: StepHistoryName): (r: Option<StepHistory>)
    ensures r.Some? ==> r.value in steps && r.value.chatId == chatId && r.value.userId == userId && r.value.name == name
    ensures r.None? ==> forall h :: h in steps ==> !(h.chatId == chatId && h.userId == userId && h.name == name)
  {
    if |steps| == 0 then None
    else if steps[0].chatId == chatId && steps[0].userId == userId && steps[0].name == name then Some(steps[0])
    else FindStep(steps[1..], chatId, userId, name)
  }

  /** `SendWarningStep`: mute the sender for the kick offset, post the
      warning with its verify button, and delete the warning of an earlier
      step of the same kind. */
  function SendWarningStep(e: Env, s: State, name: StepHistoryName): Step<()> {
    var s1 := Restrict(e, s, s.ctx.fromId, false, e.now + KickTimeOffsetSeconds).0;
    var r := Send(e, s1, WarnText(s.ctx.fromNameLink, HumanizeStep(name)), VerifyMarkup, 0, -1, true, 0, false);
    ReplaceEarlierWarning(e, s.ctx, name, r)
  }

  /** The end of `SendWarningStep`, once the warning `r` was sent. */
  function ReplaceEarlierWarning(e: Env, c: Context, name: StepHistoryName, r: Step<Option<SentRef>>): Step<()> {
    if r.exit.Raised? then Step(r.state, Raised)
    else
      var earlier := FindStep(r.state.steps, c.chatId, c.fromId, name);
      if earlier.None? then Step(r.state, Returned(()))
      else Step(Delete(e, r.state, earlier.value.lastWarnMessageId), Returned(()))
  }

  /** `ScheduleKickJob`: schedule the kick, then record the step; the record
      dereferences `From`. */
  function ScheduleKickJob(e: Env, s: State, name: StepHistoryName): Step<()> {
    var s1 := s.(jobs := s.jobs + [KickJob(s.ctx.chatId, s.ctx.fromId, KickTimeOffsetSeconds)]);
    if s.ctx.from.None? then Step(s1, Raised)
    else
      var step := StepHistory(name, s.ctx.chatId, s.ctx.fromId, s.ctx.from.value.firstName, s.ctx.from.value.lastName,
                              "User don't have " + HumanizeStep(name), NeedVerify, |s.jobs|,
                              if s.sentMessage.Some? then s.sentMessage.value.messageId else -1);
      Step(s1.(steps := s1.steps + [step]), Returned(()))
  }

  /** `RunCheckUserUsername`: true lets the member through; false means the
      member was warned. */
  function RunCheckUserUsername(e: Env, s: State): Step<bool> {
    if s.ctx.channelOrEditedPost.Some? || s.ctx.hasUsername || CheckPermission(e, s.ctx)
       || !e.settingOf(s.ctx.chatId).enableWarnUsername
    then Step(s, Returned(true))
    else
      var w := SendWarningStep(e, s, ChatMemberUsername);
      Step(w.state, if w.exit.Raised? then Raised else Returned(false))
  }

  /** `RunCheckUserProfilePhoto`. */
  function RunCheckUserProfilePhoto(e: Env, s: State): Step<bool> {
    if s.ctx.callbackQuery.Some? || s.ctx.channelOrEditedPost.Some? || CheckPermission(e, s.ctx)
       || e.hasProfilePhoto(s.ctx.chatId, s.ctx.fromId)
    then Step(s, Returned(true))
    else
      var w := SendWarningStep(e, s, ChatMemberPhoto);
      Step(w.state, if w.exit.Raised? then Raised else Returned(false))
  }

  // ------------------------------------------------------------ callbacks

  /** One mode of `CallbackAnswerAsync`; `updated` is the message the
      answer has produced so far. */
  function RunMode(e: Env, s: State, updated: Option<SentRef>, a: CallbackAnswer, m: CallbackAnswerMode): Step<Option<SentRef>> {
    match m
    case AnswerCallbackMode => Step(AnswerCallback(e, s, a.text, true), Returned(updated))
    case SendMessageMode => Send(e, s, a.text, a.markup, -1, -1, false, 0, false)
    case EditMessageMode => Edit(e, s, a.text, a.markup, true, 0, false)
    case MuteMemberMode => Step(Restrict(e, s, s.ctx.fromId, false, e.now + a.muteSeconds).0, Returned(updated))
    case DeleteMessageMode => Step(Delete(e, s, a.deleteMessageId), Returned(updated))
    case ScheduleKickMemberMode =>
      var k := ScheduleKickJob(e, s, HumanVerification);
      Step(k.state, if k.exit.Raised? then Raised else Returned(updated))
    case _ => Step(s, Returned(updated))
  }

  /** The modes run one after another; the first that throws ends the
      answer. */
  function RunModes(e: Env, s: State, a: CallbackAnswer, modes: seq<CallbackAnswerMode>): Step<Option<SentRef>>
    decreases |modes|
  {
    if |modes| == 0 then Step(s, Returned(None))
    else
      var prev := RunModes(e, s, a, modes[..|modes| - 1]);
      if prev.exit.Raised? then prev
      else RunMode(e, prev.state, prev.exit.value, a, modes[|modes| - 1])
  }
}
