/** `TelegramService`: the per-update gateway between the bot's handlers and
    the Bot API. Each method changes the service's fields and the logs of
    its effects step by step, and is proved to end in the state the
    matching function of `GatewaySpec` describes. */
module Gateway {
  import opened Wrappers
  import opened TelegramTypes
  import opened UpdateContext
  import opened GatewaySpec
  import GatewayFacts
  import Settings

  class TelegramService {
    const env: Env

    var update: Option<Update>
    var ctx: Context
    var timeInit: string
    var sentMessage: Option<SentRef>
    var appendText: string
    /** The requests sent to the Bot API so far, oldest first. */
    var calls: seq<Call>
    /** The rows handed to the message-history store. */
    var history: seq<HistoryRow>
    /** The verification steps recorded. */
    var steps: seq<StepHistory>
    /** The kick jobs scheduled. */
    var jobs: seq<KickJob>

    function Model(): State
      reads this
    {
      State(update, ctx, timeInit, sentMessage, appendText, calls, history, steps, jobs)
    }

    constructor(env: Env)
      ensures this.env == env && Model() == Initial
    {
      this.env := env;
      update := None;
      ctx := Blank;
      timeInit := "";
      sentMessage := None;
      appendText := "";
      calls := [];
      history := [];
      steps := [];
      jobs := [];
    }

    /** One request to the Bot API and its answer. */
    method Request(c: Call) returns (o: Outcome)
      modifies this`calls
      ensures calls == old(calls) + [c] && o == env.respond(|old(calls)|)
    {
      o := env.respond(|calls|);
      calls := calls + [c];
    }

    // ------------------------------------------------------------ update

    /** `AddUpdateContext`. */
    method AddUpdateContext(u: Update) returns (x: Exit<()>)
      modifies this
      ensures var r := GatewaySpec.AddUpdateContext(env, old(Model()), u); Model() == r.state && x == r.exit
    {
      update := Some(u);
      x := AddUpdate(u);
    }

    /** `AddUpdate`, deriving the context from its argument. */
    method AddUpdate(u: Update) returns (x: Exit<()>)
      modifies this
      ensures var r := GatewaySpec.AddUpdate(env, old(Model()), u); Model() == r.state && x == r.exit
    {
      var c := Derive(u, env.now, env.sudoers);
      if c.None? {
        return Raised;
      }
      ctx := c.value;
      timeInit := env.delay(ctx.messageDate);
      return Returned(());
    }

    // ------------------------------------------------------------ history

    /** `SaveMessageToHistoryAsync`. */
    method SaveMessageToHistory(messageId: int, flag: MessageFlag, deleteAt: int)
      modifies this`history
      ensures Model() == GatewaySpec.SaveMessageToHistory(env, old(Model()), messageId, flag, deleteAt)
    {
      var at := deleteAt;
      if at == 0 {
        at := env.now + DefaultHistorySeconds;
      }
      history := history + [HistoryRow(flag, ctx.fromId, ctx.chatId, messageId, at)];
    }

    /** `SaveToMessageHistory`. */
    method SaveToMessageHistory(deleteAt: int, includeSender: bool) returns (x: Exit<()>)
      modifies this`history
      ensures var r := GatewaySpec.SaveToMessageHistory(env, old(Model()), deleteAt, includeSender);
        Model() == r.state && x == r.exit
    {
      var flag := CommandFlag(env, ctx);
      if sentMessage.None? {
        return Raised;
      }
      SaveMessageToHistory(sentMessage.value.messageId, flag, deleteAt);
      if includeSender {
        if ctx.messageOrEdited.None? {
          return Raised;
        }
        SaveMessageToHistory(ctx.messageOrEdited.value.messageId, flag, deleteAt);
      }
      return Returned(());
    }

    /** `SaveSenderMessageToHistory`. */
    method SaveSenderMessageToHistory(flag: MessageFlag, deleteAt: int) returns (x: Exit<()>)
      modifies this`history
      ensures var r := GatewaySpec.SaveSenderMessageToHistory(env, old(Model()), flag, deleteAt);
        Model() == r.state && x == r.exit
    {
      if ctx.messageOrEdited.None? {
        return Raised;
      }
      SaveMessageToHistory(ctx.messageOrEdited.value.messageId, flag, deleteAt);
      return Returned(());
    }

    /** `SaveSentMessageToHistory`. */
    method SaveSentMessageToHistory(flag: MessageFlag, deleteAt: int) returns (x: Exit<()>)
      modifies this`history
      ensures var r := GatewaySpec.SaveSentMessageToHistory(env, old(Model()), flag, deleteAt);
        Model() == r.state && x == r.exit
    {
      if sentMessage.None? {
        return Raised;
      }
      SaveMessageToHistory(sentMessage.value.messageId, flag, deleteAt);
      return Returned(());
    }

    // ------------------------------------------------------------ sending

    /** `SendTextMessageAsync`. */
    method SendTextMessage(text: string, markup: Markup, replyToMsgId: int, customChatId: int,
                           disablePreview: bool, deleteAt: int, includeSender: bool)
      returns (x: Exit<Option<SentRef>>)
      modifies this
      ensures var r := Send(env, old(Model()), text, markup, replyToMsgId, customChatId, disablePreview, deleteAt, includeSender);
        Model() == r.state && x == r.exit
    {
      var body := text;
      if text != "" && ctx.callbackQuery.None? {
        body := text + Timing(timeInit, env.delay(ctx.messageDate));
      }
      assert body == SendBody(env, Model(), text);
      if ctx.chat.None? {
        return Raised;
      }
      var target := ctx.chat.value.id;
      if customChatId < -1 {
        target := customChatId;
      }
      var replyTo := ReplyTarget(ctx, replyToMsgId);
      if body == "" {
        return Returned(None);
      }
      var reachedEnd := TrySend(target, body, replyTo, markup, disablePreview);
      if !reachedEnd {
        return Returned(sentMessage);
      }
      if sentMessage.None? {
        return Raised;
      }
      if deleteAt != 0 {
        var h := SaveToMessageHistory(deleteAt, includeSender);
        if h.Raised? {
          return Raised;
        }
      }
      return Returned(sentMessage);
    }

    /** The send and its single retry inside `SendTextMessageAsync`. */
    method TrySend(target: int, body: string, replyTo: int, markup: Markup, disablePreview: bool)
      returns (reachedEnd: bool)
      modifies this`calls, this`sentMessage
      ensures var a := SendAttempts(env, old(Model()), target, body, replyTo, markup, disablePreview);
        Model() == a.state && reachedEnd == a.reachedEnd
    {
      var o := Request(SendText(target, body, replyTo, markup, disablePreview));
      if o.Ok? {
        sentMessage := Some(SentRef(target, o.id));
        return true;
      }
      if !o.isWarning {
        return false;
      }
      var retry := Request(SendText(target, body, 0, markup, false));
      if retry.Ok? {
        sentMessage := Some(SentRef(target, retry.id));
      }
      return true;
    }

    /** `EditMessageTextAsync`, recording a requested deletion after a
        successful edit too. */
    method EditMessageText(text: string, markup: Markup, disablePreview: bool, deleteAt: int, includeSender: bool)
      returns (x: Exit<Option<SentRef>>)
      modifies this
      ensures var r := Edit(env, old(Model()), text, markup, disablePreview, deleteAt, includeSender);
        Model() == r.state && x == r.exit
    {
      var body := text;
      if text != "" {
        body := text + Timing(timeInit, env.delay(ctx.messageDate));
      }
      if sentMessage.None? {
        return Raised;
      }
      var o := Request(EditText(ctx.chatId, sentMessage.value.messageId, body, markup, disablePreview));
      if o.Ok? {
        sentMessage := Some(SentRef(ctx.chatId, o.id));
      } else if o.isWarning {
        return Returned(sentMessage);
      }
      if deleteAt != 0 {
        var h := SaveToMessageHistory(deleteAt, includeSender);
        if h.Raised? {
          return Raised;
        }
      }
      return Returned(sentMessage);
    }

    /** `AppendTextAsync`. */
    method AppendText(text: string, markup: Markup) returns (x: Exit<()>)
      modifies this
      ensures var r := GatewaySpec.AppendText(env, old(Model()), text, markup); Model() == r.state && x == r.exit
    {
      var sent: Exit<Option<SentRef>>;
      if appendText == "" {
        appendText := text;
        sent := SendTextMessage(text, markup, -1, -1, false, 0, false);
      } else {
        appendText := appendText + "\n" + text;
        sent := EditMessageText(appendText, markup, true, 0, false);
      }
      x := Unit(sent);
    }

    /** `DeleteAsync`. */
    method Delete(messageId: int)
      modifies this`calls
      ensures Model() == GatewaySpec.Delete(env, old(Model()), messageId)
    {
      if messageId == -1 && sentMessage.None? {
        return;
      }
      var target := messageId;
      if messageId == -1 {
        target := sentMessage.value.messageId;
      }
      var _ := Request(Call.DeleteMessage(ctx.chatId, target));
    }

    /** `AnswerCallbackQueryAsync`. */
    method AnswerCallbackQuery(text: string, showAlert: bool)
      modifies this`calls
      ensures Model() == AnswerCallback(env, old(Model()), text, showAlert)
    {
      if ctx.callbackQuery.None? {
        return;
      }
      var _ := Request(Call.AnswerCallbackQuery(ctx.callbackQuery.value.id, text, showAlert));
    }

    /** `SendMediaGroupAsync`. */
    method SendMediaGroup(album: seq<AlbumItem>) returns (result: RequestResult)
      modifies this`calls
      ensures (Model(), result) == GatewaySpec.SendMediaGroup(env, old(Model()), album)
    {
      var ids := env.groupIds(|calls|);
      var o := Request(Call.SendMediaGroup(ctx.chatId, album));
      if o.Ok? {
        var chatId := ctx.chatId;
        result := RequestResult(Some(seq(|ids|, i requires 0 <= i < |ids| => SentRef(chatId, ids[i]))), None);
      } else {
        result := RequestResult(None, Some(o.message));
      }
    }

    /** `SendMediaAsync`. */
    method SendMedia(file: string, mediaType: Settings.MediaType, caption: string, markup: Markup, replyToMsgId: int)
      returns (x: Exit<Option<SentRef>>)
      modifies this`calls, this`sentMessage
      ensures var r := GatewaySpec.SendMedia(env, old(Model()), file, mediaType, caption, markup, replyToMsgId);
        Model() == r.state && x == r.exit
    {
      if ctx.message.None? {
        return Raised;
      }
      var annotated := caption;
      if caption != "" {
        annotated := caption + Timing(timeInit, env.delay(ctx.message.value.date));
      }
      var call := MediaCall(mediaType, ctx.chatId, file, annotated, markup, replyToMsgId);
      if call.None? {
        return Returned(None);
      }
      var o := Request(call.value);
      if o.Fail? {
        return Raised;
      }
      sentMessage := Some(SentRef(ctx.chatId, o.id));
      return Returned(sentMessage);
    }

    // ------------------------------------------------------------ members

    /** `RestrictMemberAsync`. */
    method RestrictMember(userId: int, unMute: bool, until: int) returns (result: TelegramResult)
      modifies this`calls
      ensures (Model(), result) == Restrict(env, old(Model()), userId, unMute, until)
    {
      var o := Request(Call.RestrictMember(ctx.chatId, userId, AllPermissions(unMute), RestrictUntil(env.now, unMute, until)));
      if o.Ok? {
        result := TelegramResult(true, None);
      } else {
        result := TelegramResult(false, Some(o.message));
      }
    }

    /** `UnmuteChatMemberAsync`. */
    method UnmuteChatMember(userId: int) returns (result: TelegramResult)
      modifies this`calls
      ensures (Model(), result) == Restrict(env, old(Model()), userId, true, 0)
    {
      result := RestrictMember(userId, true, 0);
    }

    /** `UnBanMemberAsync`. */
    method UnBanMember(userId: int) returns (x: Exit<()>)
      modifies this
      ensures var r := UnBan(env, old(Model()), userId); Model() == r.state && x == r.exit
    {
      var o := Request(Call.UnbanMember(ctx.chatId, userId));
      if o.Ok? {
        return Returned(());
      }
      var sent := SendTextMessage(o.message, NoMarkup, -1, -1, false, 0, false);
      x := Unit(sent);
    }

    /** `KickMemberAsync`. */
    method KickMember(userId: int, unban: bool) returns (ok: bool)
      modifies this
      ensures (Model(), ok) == Kick(env, old(Model()), userId, unban)
    {
      var o := Request(Call.BanMember(ctx.chatId, userId, env.now));
      if o.Fail? {
        return false;
      }
      if unban {
        var u := UnBanMember(userId);
        return u.Returned?;
      }
      return true;
    }

    /** `CheckFromAdmin(userId)`. */
    method CheckFromAdmin(userId: int) returns (isAdmin: bool)
      modifies this`ctx
      ensures (Model(), isAdmin) == GatewaySpec.CheckFromAdmin(env, old(Model()), userId)
    {
      if ctx.isPrivateChat {
        return false;
      }
      if userId > 0 {
        ctx := ctx.(fromId := userId);
      }
      isAdmin := (ctx.chatId, ctx.fromId) in env.chatAdmins;
    }

    // ------------------------------------------------ verification steps

    /** `SendWarningStep`. */
    method SendWarningStep(name: StepHistoryName) returns (x: Exit<()>)
      modifies this
      ensures var r := GatewaySpec.SendWarningStep(env, old(Model()), name); Model() == r.state && x == r.exit
    {
      GatewayFacts.WarningStepUnfolds(env, Model(), name);
      var c := ctx;
      var _ := RestrictMember(ctx.fromId, false, env.now + KickTimeOffsetSeconds);
      var sent := SendTextMessage(WarnText(c.fromNameLink, HumanizeStep(name)), VerifyMarkup, 0, -1, true, 0, false);
      x := ReplaceEarlierWarning(c, name, sent);
    }

    /** The end of `SendWarningStep`: delete the warning of an earlier step
        of the same kind. */
    method ReplaceEarlierWarning(c: Context, name: StepHistoryName, sent: Exit<Option<SentRef>>) returns (x: Exit<()>)
      modifies this`calls
      ensures var r := GatewaySpec.ReplaceEarlierWarning(env, c, name, Step(old(Model()), sent));
        Model() == r.state && x == r.exit
    {
      if sent.Raised? {
        return Raised;
      }
      var earlier := FindStep(steps, c.chatId, c.fromId, name);
      if earlier.Some? {
        Delete(earlier.value.lastWarnMessageId);
      }
      return Returned(());
    }

    /** `ScheduleKickJob`. */
    method ScheduleKickJob(name: StepHistoryName) returns (x: Exit<()>)
      modifies this`jobs, this`steps
      ensures var r := GatewaySpec.ScheduleKickJob(env, old(Model()), name); Model() == r.state && x == r.exit
    {
      var jobId := |jobs|;
      jobs := jobs + [KickJob(ctx.chatId, ctx.fromId, KickTimeOffsetSeconds)];
      if ctx.from.None? {
        return Raised;
      }
      var lastWarn := if sentMessage.Some? then sentMessage.value.messageId else -1;
      steps := steps + [StepHistory(name, ctx.chatId, ctx.fromId, ctx.from.value.firstName, ctx.from.value.lastName,
                                    "User don't have " + HumanizeStep(name), NeedVerify, jobId, lastWarn)];
      return Returned(());
    }

    /** `RunCheckUserUsername`. */
    method RunCheckUserUsername() returns (x: Exit<bool>)
      modifies this
      ensures var r := GatewaySpec.RunCheckUserUsername(env, old(Model())); Model() == r.state && x == r.exit
    {
      if ctx.channelOrEditedPost.Some? || ctx.hasUsername || CheckPermission(env, ctx)
         || !env.settingOf(ctx.chatId).enableWarnUsername
      {
        return Returned(true);
      }
      var w := SendWarningStep(ChatMemberUsername);
      x := if w.Raised? then Raised else Returned(false);
    }

    /** `RunCheckUserProfilePhoto`. */
    method RunCheckUserProfilePhoto() returns (x: Exit<bool>)
      modifies this
      ensures var r := GatewaySpec.RunCheckUserProfilePhoto(env, old(Model())); Model() == r.state && x == r.exit
    {
      if ctx.callbackQuery.Some? || ctx.channelOrEditedPost.Some? || CheckPermission(env, ctx)
         || env.hasProfilePhoto(ctx.chatId, ctx.fromId)
      {
        return Returned(true);
      }
      var w := SendWarningStep(ChatMemberPhoto);
      x := if w.Raised? then Raised else Returned(false);
    }

    // ------------------------------------------------------------ callbacks

    /** One mode of `CallbackAnswerAsync`. */
    method RunMode(updated: Option<SentRef>, a: CallbackAnswer, m: CallbackAnswerMode) returns (x: Exit<Option<SentRef>>)
      modifies this
      ensures var r := GatewaySpec.RunMode(env, old(Model()), updated, a, m); Model() == r.state && x == r.exit
    {
      x := Returned(updated);
      match m {
        case AnswerCallbackMode =>
          AnswerCallbackQuery(a.text, true);
        case SendMessageMode =>
          x := SendTextMessage(a.text, a.markup, -1, -1, false, 0, false);
        case EditMessageMode =>
          x := EditMessageText(a.text, a.markup, true, 0, false);
        case MuteMemberMode =>
          var _ := RestrictMember(ctx.fromId, false, env.now + a.muteSeconds);
        case DeleteMessageMode =>
          Delete(a.deleteMessageId);
        case ScheduleKickMemberMode =>
          var k := ScheduleKickJob(HumanVerification);
          if k.Raised? {
            x := Raised;
          }
        case _ =>
      }
    }

    /** `CallbackAnswerAsync`: the modes one after another; the result is the
        message the last sending or editing mode produced. */
    method CallbackAnswer(a: CallbackAnswer) returns (x: Exit<Option<SentRef>>)
      modifies this
      ensures var r := RunModes(env, old(Model()), a, a.modes); Model() == r.state && x == r.exit
    {
      ghost var s0 := Model();
      var updated: Option<SentRef> := None;
      var i := 0;
      while i < |a.modes|
        invariant 0 <= i <= |a.modes|
        invariant RunModes(env, s0, a, a.modes[..i]) == Step(Model(), Returned(updated))
      {
        assert a.modes[..i + 1][..i] == a.modes[..i];
        var r := RunMode(updated, a, a.modes[i]);
        if r.Raised? {
          assert a.modes[..i + 1] + a.modes[i + 1..] == a.modes;
          GatewayFacts.ModesStopAtRaise(env, s0, a, a.modes[..i + 1], a.modes[i + 1..]);
          return Raised;
        }
        updated := r.value;
        i := i + 1;
      }
      assert a.modes[..i] == a.modes;
      return Returned(updated);
    }
  }
}
